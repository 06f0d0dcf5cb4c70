/** The lazy decorators of src/extended-iterable.ts, synchronous paths.
    Each decorator owns one upstream handle and the transformer of the
    wrapper it was made from; the wrapper it is returned in has none.
    Each keeps a ghost history `Emitted` of the results its `next()`
    returned after consuming upstream entries, and its invariant says that
    this history is what the decorator's run function makes of the upstream
    entries consumed so far. */
module ExtendedDecorators {
  import opened JsValues
  import opened Sequences
  import opened Handles

  /** Results emitted so far, a counter, and the number of errors routed to
      the upstream `throw()`. */
  datatype Trace = Trace(outs: seq<Completion<Step>>, index: nat, routed: nat)

  // ---------------------------------------------------------------- map

  /** One upstream pull as MapIterator.next() treats it: an error from the
      pull itself propagates untouched; a transformer or callback error is
      reported to the upstream `throw()` and rethrown.  The index is bumped
      once the transformer has succeeded, before the callback runs. */
  function MapFeed(t: Trace, c: Completion<Value>, transformer: Option<Transformer>, callback: Callback): Trace {
    match c
    case Thrown(e) => Trace(t.outs + [Thrown(e)], t.index, t.routed)
    case Normal(x) =>
      match Apply(transformer, x)
      case Thrown(e) => Trace(t.outs + [Thrown(e)], t.index, t.routed + 1)
      case Normal(y) =>
        match callback(y, t.index)
        case Thrown(e) => Trace(t.outs + [Thrown(e)], t.index + 1, t.routed + 1)
        case Normal(z) => Trace(t.outs + [Normal(Yield(z))], t.index + 1, t.routed)
  }

  function MapRun(s: seq<Completion<Value>>, transformer: Option<Transformer>, callback: Callback): Trace
    decreases |s|
  {
    if s == [] then Trace([], 0, 0)
    else MapFeed(MapRun(s[..|s| - 1], transformer, callback), s[|s| - 1], transformer, callback)
  }

  /** map emits exactly one result per upstream pull, errors included. */
  lemma {:induction false} MapRunLength(s: seq<Completion<Value>>, transformer: Option<Transformer>, callback: Callback)
    ensures |MapRun(s, transformer, callback).outs| == |s|
    ensures MapRun(s, transformer, callback).index <= |s|
    decreases |s|
  {
    if s != [] {
      MapRunLength(s[..|s| - 1], transformer, callback);
    }
  }

  /** MapRun over a consumed prefix that grew by one entry. */
  lemma MapRunStep(script: seq<Completion<Value>>, lo: nat, hi: nat, transformer: Option<Transformer>, callback: Callback)
    requires lo < hi <= |script|
    ensures MapRun(script[lo..hi], transformer, callback)
         == MapFeed(MapRun(script[lo..hi - 1], transformer, callback), script[hi - 1], transformer, callback)
  {
    ConsumedStep(script, lo, hi);
  }

  /** Without errors, map yields `callback(transform(x), i)` with `i` the
      position of `x`, and never calls the upstream `throw()`. */
  lemma {:induction false} MapRunMeaning(s: seq<Completion<Value>>, transformer: Option<Transformer>, callback: Callback)
    requires AllNormal(s) && TransformNeverThrows(transformer) && CallbackNeverThrows(callback)
    ensures var t := MapRun(s, transformer, callback);
      && |t.outs| == |s| && t.index == |s| && t.routed == 0
      && forall i :: 0 <= i < |s| ==> t.outs[i] == Normal(Yield(callback(Transformed(transformer, s[i].value), i).value))
    decreases |s|
  {
    if s != [] {
      var init := s[..|s| - 1];
      MapRunMeaning(init, transformer, callback);
      assert AllNormal(init);
      var t0 := MapRun(init, transformer, callback);
      var x := s[|s| - 1].value;
      assert Apply(transformer, x) == Normal(Transformed(transformer, x));
      assert callback(Transformed(transformer, x), t0.index).Normal?;
    }
  }

  /** `new MapIterator(iterator, callback, transformer)`. */
  class MapIterator {
    const up: Source
    const callback: Callback
    const transformer: Option<Transformer>
    var index: nat
    ghost var Emitted: seq<Completion<Step>>
    ghost const start: nat
    ghost const throwBase: nat

    ghost predicate Valid()
      reads this, up
    {
      && up.Valid()
      && start <= up.pos
      && var t := MapRun(up.script[start..up.pos], transformer, callback);
      && Emitted == t.outs
      && index == t.index
      && up.throwCalls == throwBase + ThrowCalls(up.throwCap, t.routed)
    }

    constructor (up: Source, callback: Callback, transformer: Option<Transformer>)
      requires up.Valid()
      ensures Valid()
      ensures this.up == up && this.callback == callback && this.transformer == transformer
      ensures index == 0 && Emitted == []
    {
      this.up, this.callback, this.transformer := up, callback, transformer;
      index := 0;
      Emitted := [];
      start := up.pos;
      throwBase := up.throwCalls;
    }

    /** Each call consumes one upstream entry and emits what map makes of it,
        or passes the upstream's done result on. */
    method Next() returns (r: Completion<Step>)
      requires Valid()
      modifies this, up
      ensures Valid()
      ensures old(up.pos) < |up.script| ==> up.pos == old(up.pos) + 1 && Emitted == old(Emitted) + [r]
      ensures old(up.pos) == |up.script| ==> up.pos == old(up.pos) && Emitted == old(Emitted) && r == Normal(Done(up.doneValue))
      ensures up.pulls == old(up.pulls) + 1 && up.returnCalls == old(up.returnCalls)
    {
      var result := up.Next();
      if result.Normal? && result.value.Done? {
        r := result;
      } else if result.Thrown? {
        MapRunStep(up.script, start, up.pos, transformer, callback);
        r := result;
        Emitted := Emitted + [r];
      } else {
        r := MapValue(result.value.value);
      }
    }

    /** Valid, but for the last pulled entry, a value `x`, which has not
        been mapped yet. */
    ghost predicate Pulled(x: Value)
      reads this, up
    {
      && up.Valid()
      && start < up.pos
      && up.script[up.pos - 1] == Normal(x)
      && var t := MapRun(up.script[start..up.pos - 1], transformer, callback);
      && Emitted == t.outs
      && index == t.index
      && up.throwCalls == throwBase + ThrowCalls(up.throwCap, t.routed)
    }

    /** The try block of next(): `callback(transform(x), index++)`, an error
        from either being reported to the upstream `throw()` and rethrown. */
    method MapValue(x: Value) returns (r: Completion<Step>)
      requires Pulled(x)
      modifies this`index, this`Emitted, up`throwCalls
      ensures Valid()
      ensures Emitted == old(Emitted) + [r]
    {
      MapRunStep(up.script, start, up.pos, transformer, callback);
      var y := Apply(transformer, x);
      if y.Thrown? {
        FailIfPossible(up, y.error);
        r := Thrown(y.error);
      } else {
        var i := index;
        index := index + 1;
        var z := callback(y.value, i);
        if z.Thrown? {
          FailIfPossible(up, z.error);
          r := Thrown(z.error);
        } else {
          r := Normal(Yield(z.value));
        }
      }
      Emitted := Emitted + [r];
    }
  }

  // ---------------------------------------------------------------- shared

  /** `{done: false, value: transform(x)}` for a normal pull, the error for a
      failed one; a transformer error propagates. */
  function TransformEntry(transformer: Option<Transformer>, c: Completion<Value>): (r: Completion<Step>)
    ensures c.Thrown? ==> r == Thrown(c.error)
    ensures c.Normal? && Apply(transformer, c.value).Normal? ==> r == Normal(Yield(Apply(transformer, c.value).value))
    ensures c.Normal? && Apply(transformer, c.value).Thrown? ==> r == Thrown(Apply(transformer, c.value).error)
  {
    match c
    case Thrown(e) => Thrown(e)
    case Normal(x) =>
      match Apply(transformer, x)
      case Normal(y) => Normal(Yield(y))
      case Thrown(e) => Thrown(e)
  }

  /** TransformEntry applied to each pull of a script. */
  function TransformEntries(transformer: Option<Transformer>, s: seq<Completion<Value>>): (r: seq<Completion<Step>>)
    ensures |r| == |s| && forall i :: 0 <= i < |s| ==> r[i] == TransformEntry(transformer, s[i])
  {
    seq(|s|, i requires 0 <= i < |s| => TransformEntry(transformer, s[i]))
  }

  lemma TransformEntriesSnoc(transformer: Option<Transformer>, s: seq<Completion<Value>>, c: Completion<Value>)
    ensures TransformEntries(transformer, s + [c]) == TransformEntries(transformer, s) + [TransformEntry(transformer, c)]
  {
  }

  /** Splitting off the last element of a consumed prefix. */
  lemma ConsumedStep(script: seq<Completion<Value>>, lo: nat, hi: nat)
    requires lo < hi <= |script|
    ensures script[lo..hi] == script[lo..hi - 1] + [script[hi - 1]]
    ensures script[lo..hi][..hi - 1 - lo] == script[lo..hi - 1]
    ensures script[lo..hi][hi - 1 - lo] == script[hi - 1]
  {
  }

  // ---------------------------------------------------------------- filter

  /** What the filter callback's answer means: a truthy result keeps the
      value; a throwing callback keeps nothing. */
  function Accepts(callback: Callback): (Value, nat) -> bool {
    (v: Value, i: nat) => callback(v, i).Normal? && Truthy(callback(v, i).value)
  }

  /** One upstream pull as FilterIterator.next() treats it.  An error from the
      pull itself propagates.  A transformer or callback error goes to the
      iterator's own `throw()`, whose outcome (a rethrow, or done when the
      upstream `throw()` completes) is returned.  A rejected value returns
      nothing, and the loop pulls again.  The index is bumped before the
      callback runs. */
  function FilterFeed(t: Trace, c: Completion<Value>, cap: ThrowCapability, transformer: Option<Transformer>, callback: Callback): Trace {
    match c
    case Thrown(e) => Trace(t.outs + [Thrown(e)], t.index, t.routed)
    case Normal(x) =>
      match Apply(transformer, x)
      case Thrown(e) => Trace(t.outs + [ThrowOutcome(cap, e)], t.index, t.routed + 1)
      case Normal(y) =>
        match callback(y, t.index)
        case Thrown(e) => Trace(t.outs + [ThrowOutcome(cap, e)], t.index + 1, t.routed + 1)
        case Normal(keep) =>
          if Truthy(keep) then Trace(t.outs + [Normal(Yield(y))], t.index + 1, t.routed)
          else Trace(t.outs, t.index + 1, t.routed)
  }

  function FilterRun(s: seq<Completion<Value>>, cap: ThrowCapability, transformer: Option<Transformer>, callback: Callback): Trace
    decreases |s|
  {
    if s == [] then Trace([], 0, 0)
    else FilterFeed(FilterRun(s[..|s| - 1], cap, transformer, callback), s[|s| - 1], cap, transformer, callback)
  }

  /** FilterRun over a consumed prefix that grew by one entry. */
  lemma FilterRunStep(script: seq<Completion<Value>>, lo: nat, hi: nat, cap: ThrowCapability, transformer: Option<Transformer>, callback: Callback)
    requires lo < hi <= |script|
    ensures FilterRun(script[lo..hi], cap, transformer, callback)
         == FilterFeed(FilterRun(script[lo..hi - 1], cap, transformer, callback), script[hi - 1], cap, transformer, callback)
  {
    ConsumedStep(script, lo, hi);
  }

  /** Without errors, filter yields the transformed values its callback
      accepts, in order, each examined with its own position as index. */
  lemma {:induction false} FilterRunMeaning(s: seq<Completion<Value>>, cap: ThrowCapability, transformer: Option<Transformer>, callback: Callback)
    requires AllNormal(s) && TransformNeverThrows(transformer) && CallbackNeverThrows(callback)
    ensures var t := FilterRun(s, cap, transformer, callback);
      && t.outs == Yields(FilterIndexed(Accepts(callback), TransformAll(transformer, Values(s))))
      && t.index == |s| && t.routed == 0
    decreases |s|
  {
    if s != [] {
      var init := s[..|s| - 1];
      TransformAllSnoc(transformer, s);
      FilterRunMeaning(init, cap, transformer, callback);
      var t0 := FilterRun(init, cap, transformer, callback);
      assert FilterRun(s, cap, transformer, callback) == FilterFeed(t0, s[|s| - 1], cap, transformer, callback);
      var x := s[|s| - 1].value;
      assert callback(Transformed(transformer, x), |init|).Normal?;
      FilterStep(t0, TransformAll(transformer, Values(init)), x, cap, transformer, callback);
    }
  }

  /** The inductive step of FilterRunMeaning, for one more value `x`. */
  lemma FilterStep(t0: Trace, ys: seq<Value>, x: Value, cap: ThrowCapability, transformer: Option<Transformer>, callback: Callback)
    requires TransformNeverThrows(transformer) && callback(Transformed(transformer, x), |ys|).Normal?
    requires t0.outs == Yields(FilterIndexed(Accepts(callback), ys)) && t0.index == |ys| && t0.routed == 0
    ensures var y := Transformed(transformer, x);
      var t := FilterFeed(t0, Normal(x), cap, transformer, callback);
      t.outs == Yields(FilterIndexed(Accepts(callback), ys + [y])) && t.index == |ys| + 1 && t.routed == 0
  {
    var y := Transformed(transformer, x);
    var accepts := Accepts(callback);
    var answer := callback(y, |ys|);
    FilterIndexedAppend(accepts, ys, y);
    var kept := FilterIndexed(accepts, ys);
    assert Apply(transformer, x) == Normal(y);
    if Truthy(answer.value) {
      assert accepts(y, |ys|);
      YieldsSnoc(kept, y);
    } else {
      assert !accepts(y, |ys|);
      assert kept + [] == kept;
    }
  }

  /** No error is swallowed on the way: a thrown pull always shows up among
      the results, and unless the upstream `throw()` completes, so does
      every transformer error and every error of the callback (which is
      called at the position that the values examined before it give). */
  lemma {:induction false} FilterRunKeepsErrors(s: seq<Completion<Value>>, cap: ThrowCapability, transformer: Option<Transformer>, callback: Callback)
    ensures forall i :: 0 <= i < |s| && s[i].Thrown? ==> Thrown(s[i].error) in FilterRun(s, cap, transformer, callback).outs
    ensures cap != Completes ==>
      forall i :: 0 <= i < |s| && s[i].Normal? && Apply(transformer, s[i].value).Thrown? ==>
        Thrown(Apply(transformer, s[i].value).error) in FilterRun(s, cap, transformer, callback).outs
    ensures cap != Completes ==>
      forall i :: (0 <= i < |s| && s[i].Normal? && Apply(transformer, s[i].value).Normal? &&
                   callback(Apply(transformer, s[i].value).value, FilterRun(s[..i], cap, transformer, callback).index).Thrown?) ==>
        Thrown(callback(Apply(transformer, s[i].value).value, FilterRun(s[..i], cap, transformer, callback).index).error)
          in FilterRun(s, cap, transformer, callback).outs
    decreases |s|
  {
    if s != [] {
      var init := s[..|s| - 1];
      FilterRunKeepsErrors(init, cap, transformer, callback);
      var t0 := FilterRun(init, cap, transformer, callback);
      var t := FilterRun(s, cap, transformer, callback);
      assert t == FilterFeed(t0, s[|s| - 1], cap, transformer, callback);
      assert t0.outs <= t.outs;
      assert s[..|s| - 1] == init;
      forall i | 0 <= i < |s|
        ensures s[i].Thrown? ==> Thrown(s[i].error) in t.outs
        ensures cap != Completes && s[i].Normal? && Apply(transformer, s[i].value).Thrown? ==>
          Thrown(Apply(transformer, s[i].value).error) in t.outs
        ensures (cap != Completes && s[i].Normal? && Apply(transformer, s[i].value).Normal? &&
                 callback(Apply(transformer, s[i].value).value, FilterRun(s[..i], cap, transformer, callback).index).Thrown?) ==>
          Thrown(callback(Apply(transformer, s[i].value).value, FilterRun(s[..i], cap, transformer, callback).index).error) in t.outs
      {
        if i < |init| {
          assert s[i] == init[i];
          assert s[..i] == init[..i];
        }
      }
    }
  }

  /** `new FilterIterator(iterator, callback, transformer)`. */
  class FilterIterator {
    const up: Source
    const callback: Callback
    const transformer: Option<Transformer>
    var index: nat
    ghost var Emitted: seq<Completion<Step>>
    ghost const start: nat
    ghost const throwBase: nat

    ghost predicate Valid()
      reads this, up
    {
      && up.Valid()
      && start <= up.pos
      && var t := FilterRun(up.script[start..up.pos], up.throwCap, transformer, callback);
      && Emitted == t.outs
      && index == t.index
      && up.throwCalls == throwBase + ThrowCalls(up.throwCap, t.routed)
    }

    constructor (up: Source, callback: Callback, transformer: Option<Transformer>)
      requires up.Valid()
      ensures Valid()
      ensures this.up == up && this.callback == callback && this.transformer == transformer
      ensures index == 0 && Emitted == []
    {
      this.up, this.callback, this.transformer := up, callback, transformer;
      index := 0;
      Emitted := [];
      start := up.pos;
      throwBase := up.throwCalls;
    }

    /** Pulls until one upstream entry yields a result, or passes the
        upstream's done result on once the upstream is used up. */
    method Next() returns (r: Completion<Step>)
      requires Valid()
      modifies this, up
      ensures Valid()
      ensures Emitted == old(Emitted) + [r]
           || (up.Exhausted() && Emitted == old(Emitted) && r == Normal(Done(up.doneValue)))
      ensures up.pulls == old(up.pulls) + (up.pos - old(up.pos)) + (if Emitted == old(Emitted) then 1 else 0)
      ensures up.returnCalls == old(up.returnCalls)
    {
      while true
        invariant Valid() && Emitted == old(Emitted)
        invariant old(up.pos) <= up.pos
        invariant up.pulls == old(up.pulls) + (up.pos - old(up.pos))
        invariant up.returnCalls == old(up.returnCalls)
        decreases |up.script| - up.pos
      {
        var step := PullOnce();
        if step.Some? {
          r := step.value;
          return;
        }
      }
    }

    /** One round of the loop: a pull, and a pulled value processed.
        `None` asks for another round. */
    method PullOnce() returns (step: Option<Completion<Step>>)
      requires Valid()
      modifies this, up
      ensures Valid()
      ensures up.pulls == old(up.pulls) + 1 && up.returnCalls == old(up.returnCalls)
      ensures step.None? ==> Emitted == old(Emitted) && up.pos == old(up.pos) + 1
      ensures step.Some? ==>
        || (Emitted == old(Emitted) + [step.value] && up.pos == old(up.pos) + 1)
        || (up.Exhausted() && Emitted == old(Emitted) && step.value == Normal(Done(up.doneValue)) && up.pos == old(up.pos))
    {
      var result := up.Next();
      if result.Normal? && result.value.Done? {
        step := Some(result);
        return;
      }
      if result.Thrown? {
        var r := PassError(result.error);
        step := Some(r);
        return;
      }
      step := ProcessResult(result.value.value);
    }

    /** Valid, but for the last pulled entry `c`, which has not been
        processed yet. */
    ghost predicate Pulled(c: Completion<Value>)
      reads this, up
    {
      && up.Valid()
      && start < up.pos
      && up.script[up.pos - 1] == c
      && var t := FilterRun(up.script[start..up.pos - 1], up.throwCap, transformer, callback);
      && Emitted == t.outs
      && index == t.index
      && up.throwCalls == throwBase + ThrowCalls(up.throwCap, t.routed)
    }

    /** An error from the upstream's own `next()` propagates. */
    method PassError(e: Value) returns (r: Completion<Step>)
      requires Pulled(Thrown(e))
      modifies this`Emitted
      ensures Valid()
      ensures r == Thrown(e) && Emitted == old(Emitted) + [r]
    {
      FilterRunStep(up.script, start, up.pos, up.throwCap, transformer, callback);
      r := Thrown(e);
      Emitted := Emitted + [r];
    }

    /** A pulled value: transform it and ask the callback, routing either's
        error to `throw()`.  Nothing is returned for a rejected value. */
    method ProcessResult(x: Value) returns (rval: Option<Completion<Step>>)
      requires Pulled(Normal(x))
      modifies this`index, this`Emitted, up`throwCalls
      ensures Valid()
      ensures rval.Some? ==> Emitted == old(Emitted) + [rval.value]
      ensures rval.None? ==> Emitted == old(Emitted)
    {
      FilterRunStep(up.script, start, up.pos, up.throwCap, transformer, callback);
      var y := Apply(transformer, x);
      if y.Thrown? {
        var outcome := BaseThrow(up, y.error);
        rval := Some(outcome);
      } else {
        var i := index;
        index := index + 1;
        var keep := callback(y.value, i);
        if keep.Thrown? {
          var outcome := BaseThrow(up, keep.error);
          rval := Some(outcome);
        } else if Truthy(keep.value) {
          rval := Some(Normal(Yield(y.value)));
        } else {
          rval := None;
        }
      }
      if rval.Some? {
        Emitted := Emitted + [rval.value];
      }
    }
  }

  // ---------------------------------------------------------------- take

  /** One upstream pull as TakeIterator.next() treats it, below the limit.
      An error from the pull or from the transformer is reported to the
      upstream `throw()` and rethrown.  The count is bumped once the pull
      returned a value, before the transformer runs. */
  function TakeFeed(t: Trace, c: Completion<Value>, transformer: Option<Transformer>): Trace {
    match c
    case Thrown(e) => Trace(t.outs + [Thrown(e)], t.index, t.routed + 1)
    case Normal(x) =>
      match Apply(transformer, x)
      case Thrown(e) => Trace(t.outs + [Thrown(e)], t.index + 1, t.routed + 1)
      case Normal(y) => Trace(t.outs + [Normal(Yield(y))], t.index + 1, t.routed)
  }

  function TakeRun(s: seq<Completion<Value>>, transformer: Option<Transformer>): Trace
    decreases |s|
  {
    if s == [] then Trace([], 0, 0)
    else TakeFeed(TakeRun(s[..|s| - 1], transformer), s[|s| - 1], transformer)
  }

  /** TakeRun over a consumed prefix that grew by one entry. */
  lemma TakeRunStep(script: seq<Completion<Value>>, lo: nat, hi: nat, transformer: Option<Transformer>)
    requires lo < hi <= |script|
    ensures TakeRun(script[lo..hi], transformer) == TakeFeed(TakeRun(script[lo..hi - 1], transformer), script[hi - 1], transformer)
  {
    ConsumedStep(script, lo, hi);
  }

  /** Without errors, take yields each consumed value transformed, and its
      count is the number of values consumed. */
  lemma {:induction false} TakeRunMeaning(s: seq<Completion<Value>>, transformer: Option<Transformer>)
    requires AllNormal(s) && TransformNeverThrows(transformer)
    ensures var t := TakeRun(s, transformer);
      t.outs == Yields(TransformAll(transformer, Values(s))) && t.index == |s| && t.routed == 0
    decreases |s|
  {
    if s != [] {
      TransformAllSnoc(transformer, s);
      TakeRunMeaning(s[..|s| - 1], transformer);
      YieldsSnoc(TransformAll(transformer, Values(s[..|s| - 1])), Transformed(transformer, s[|s| - 1].value));
    }
  }

  /** Once take has stopped (its count reached the limit, or the upstream
      ran out), it has yielded the first `limit` transformed values. */
  lemma TakeRunComplete(w: seq<Completion<Value>>, transformer: Option<Transformer>, limit: nat)
    requires AllNormal(w) && TransformNeverThrows(transformer)
    ensures AllNormal(w[..Min(limit, |w|)])
    ensures TakeRun(w[..Min(limit, |w|)], transformer).outs == Yields(Take(TransformAll(transformer, Values(w)), limit))
  {
    var k := Min(limit, |w|);
    TakeRunMeaning(w[..k], transformer);
    assert TransformAll(transformer, Values(w[..k])) == TransformAll(transformer, Values(w))[..k];
  }

  /** `new TakeIterator(iterator, limit, transformer)`. */
  class TakeIterator {
    const up: Source
    const limit: nat
    const transformer: Option<Transformer>
    var count: nat
    ghost var Emitted: seq<Completion<Step>>
    ghost const start: nat
    ghost const throwBase: nat

    ghost predicate Valid()
      reads this, up
    {
      && up.Valid()
      && start <= up.pos
      && var t := TakeRun(up.script[start..up.pos], transformer);
      && Emitted == t.outs
      && count == t.index
      && count <= limit
      && up.throwCalls == throwBase + ThrowCalls(up.throwCap, t.routed)
    }

    constructor (up: Source, limit: nat, transformer: Option<Transformer>)
      requires up.Valid()
      ensures Valid()
      ensures this.up == up && this.limit == limit && this.transformer == transformer
      ensures count == 0 && Emitted == []
    {
      this.up, this.limit, this.transformer := up, limit, transformer;
      count := 0;
      Emitted := [];
      start := up.pos;
      throwBase := up.throwCalls;
    }

    /** At the limit: release the upstream (on every such call) and report
        done without pulling.  Below it: one pull, as TakeFeed says. */
    method Next() returns (r: Completion<Step>)
      requires Valid()
      modifies this, up
      ensures Valid()
      ensures old(count) >= limit ==>
        && r == Normal(Done(Undefined)) && Emitted == old(Emitted)
        && up.pos == old(up.pos) && up.pulls == old(up.pulls)
        && up.returnCalls == old(up.returnCalls) + (if up.hasReturn then 1 else 0)
      ensures old(count) < limit ==>
        && up.pulls == old(up.pulls) + 1 && up.returnCalls == old(up.returnCalls)
        && (old(up.pos) < |up.script| ==> up.pos == old(up.pos) + 1 && Emitted == old(Emitted) + [r])
        && (old(up.pos) == |up.script| ==> up.pos == old(up.pos) && Emitted == old(Emitted) && r == Normal(Done(up.doneValue)))
    {
      if count >= limit {
        ReleaseIfPossible(up);
        r := Normal(Done(Undefined));
      } else {
        r := PullBelowLimit();
      }
    }

    /** The part of next() that runs below the limit. */
    method PullBelowLimit() returns (r: Completion<Step>)
      requires Valid() && count < limit
      modifies this, up
      ensures Valid()
      ensures up.pulls == old(up.pulls) + 1 && up.returnCalls == old(up.returnCalls)
      ensures old(up.pos) < |up.script| ==> up.pos == old(up.pos) + 1 && Emitted == old(Emitted) + [r]
      ensures old(up.pos) == |up.script| ==> up.pos == old(up.pos) && Emitted == old(Emitted) && r == Normal(Done(up.doneValue))
    {
      var result := up.Next();
      if result.Normal? && result.value.Done? {
        r := result;
        return;
      }
      r := ProcessPulled(result);
    }

    /** Valid, but for the last pulled entry, lifted to `result`, which has
        not been processed yet; the limit is not reached. */
    ghost predicate Pulled(result: Completion<Step>)
      reads this, up
    {
      && up.Valid()
      && start < up.pos
      && result == Lift(up.script[up.pos - 1])
      && var t := TakeRun(up.script[start..up.pos - 1], transformer);
      && Emitted == t.outs
      && count == t.index
      && count < limit
      && up.throwCalls == throwBase + ThrowCalls(up.throwCap, t.routed)
    }

    /** An error from the pull, or from the transformer on a counted value,
        is reported to the upstream's `throw()` and propagates. */
    method ProcessPulled(result: Completion<Step>) returns (r: Completion<Step>)
      requires Pulled(result)
      modifies this`count, this`Emitted, up`throwCalls
      ensures Valid() && Emitted == old(Emitted) + [r]
    {
      TakeRunStep(up.script, start, up.pos, transformer);
      if result.Thrown? {
        FailIfPossible(up, result.error);
        r := result;
      } else {
        count := count + 1;
        var y := Apply(transformer, result.value.value);
        if y.Thrown? {
          FailIfPossible(up, y.error);
          r := Thrown(y.error);
        } else {
          r := Normal(Yield(y.value));
        }
      }
      Emitted := Emitted + [r];
    }
  }

  // ---------------------------------------------------------------- drop

  /** Results so far, values dropped, and whether drop is still skipping. */
  datatype DropTrace = DropTrace(outs: seq<Completion<Step>>, dropped: nat, skipping: bool)

  /** One upstream pull as DropIterator.next() treats it.  Errors from the
      pull propagate and are not counted as dropped; values are dropped
      while fewer than `count` have been; after that every value is
      transformed, a transformer error propagating. */
  function DropFeed(t: DropTrace, c: Completion<Value>, count: nat, transformer: Option<Transformer>): DropTrace {
    match c
    case Thrown(e) => DropTrace(t.outs + [Thrown(e)], t.dropped, t.skipping)
    case Normal(x) =>
      if t.skipping && t.dropped < count then DropTrace(t.outs, t.dropped + 1, true)
      else DropTrace(t.outs + [TransformEntry(transformer, c)], t.dropped, false)
  }

  function DropRun(s: seq<Completion<Value>>, count: nat, transformer: Option<Transformer>): DropTrace
    decreases |s|
  {
    if s == [] then DropTrace([], 0, true)
    else DropFeed(DropRun(s[..|s| - 1], count, transformer), s[|s| - 1], count, transformer)
  }

  /** DropRun over a consumed prefix that grew by one entry. */
  lemma DropRunStep(script: seq<Completion<Value>>, lo: nat, hi: nat, count: nat, transformer: Option<Transformer>)
    requires lo < hi <= |script|
    ensures DropRun(script[lo..hi], count, transformer)
         == DropFeed(DropRun(script[lo..hi - 1], count, transformer), script[hi - 1], count, transformer)
  {
    ConsumedStep(script, lo, hi);
  }

  /** Dropping one more value while skipping. */
  lemma SkippedOne(script: seq<Completion<Value>>, lo: nat, hi: nat, count: nat, transformer: Option<Transformer>,
                   outs: seq<Completion<Step>>, dropped: nat)
    requires lo < hi <= |script| && script[hi - 1].Normal? && dropped < count
    requires DropRun(script[lo..hi - 1], count, transformer) == DropTrace(outs, dropped, true)
    ensures DropRun(script[lo..hi], count, transformer) == DropTrace(outs, dropped + 1, true)
  {
    DropRunStep(script, lo, hi, count, transformer);
  }

  /** An error while skipping, or the first value past the skipped ones. */
  lemma SkipEnded(script: seq<Completion<Value>>, lo: nat, hi: nat, count: nat, transformer: Option<Transformer>,
                  outs: seq<Completion<Step>>, dropped: nat)
    requires lo < hi <= |script| && (script[hi - 1].Thrown? || dropped >= count)
    requires DropRun(script[lo..hi - 1], count, transformer) == DropTrace(outs, dropped, true)
    ensures DropRun(script[lo..hi], count, transformer)
         == DropTrace(outs + [TransformEntry(transformer, script[hi - 1])], dropped, script[hi - 1].Thrown?)
  {
    DropRunStep(script, lo, hi, count, transformer);
  }

  /** The inductive step of DropRunMeaning, for one more value `x`. */
  lemma DropStep(t0: DropTrace, ys: seq<Value>, x: Value, count: nat, transformer: Option<Transformer>)
    requires TransformNeverThrows(transformer)
    requires t0.outs == Yields(Drop(ys, count)) && t0.dropped == Min(count, |ys|) && t0.skipping == (|ys| <= count)
    ensures var t := DropFeed(t0, Normal(x), count, transformer);
      t.outs == Yields(Drop(ys + [Transformed(transformer, x)], count)) && t.dropped == Min(count, |ys| + 1) && t.skipping == (|ys| + 1 <= count)
  {
    var y := Transformed(transformer, x);
    assert TransformEntry(transformer, Normal(x)) == Normal(Yield(y));
    DropSnoc(ys, y, count);
    YieldsSnoc(Drop(ys, count), y);
  }

  /** Without errors, drop yields the transformed values after the first
      `count`, and stops skipping once it has seen more than `count`. */
  lemma {:induction false} DropRunMeaning(s: seq<Completion<Value>>, count: nat, transformer: Option<Transformer>)
    requires AllNormal(s) && TransformNeverThrows(transformer)
    ensures var t := DropRun(s, count, transformer);
      && t.outs == Yields(Drop(TransformAll(transformer, Values(s)), count))
      && t.dropped == Min(count, |s|)
      && t.skipping == (|s| <= count)
    decreases |s|
  {
    if s != [] {
      var init := s[..|s| - 1];
      TransformAllSnoc(transformer, s);
      DropRunMeaning(init, count, transformer);
      var t0 := DropRun(init, count, transformer);
      assert DropRun(s, count, transformer) == DropFeed(t0, s[|s| - 1], count, transformer);
      DropStep(t0, TransformAll(transformer, Values(init)), s[|s| - 1].value, count, transformer);
    } else {
      assert Drop(TransformAll(transformer, Values(s)), count) == [];
    }
  }

  /** `new DropIterator(iterator, count, transformer)`. */
  class DropIterator {
    const up: Source
    const count: nat
    const transformer: Option<Transformer>
    var dropped: nat
    var doneSkipping: bool
    ghost var Emitted: seq<Completion<Step>>
    ghost const start: nat

    /** `doneSkipping` is also set when the upstream runs out while skipping. */
    ghost predicate Valid()
      reads this, up
    {
      && up.Valid()
      && start <= up.pos
      && var t := DropRun(up.script[start..up.pos], count, transformer);
      && Emitted == t.outs
      && dropped == t.dropped
      && (!t.skipping ==> doneSkipping)
      && (doneSkipping && t.skipping ==> up.Exhausted())
    }

    constructor (up: Source, count: nat, transformer: Option<Transformer>)
      requires up.Valid()
      ensures Valid()
      ensures this.up == up && this.count == count && this.transformer == transformer
      ensures dropped == 0 && !doneSkipping && Emitted == []
    {
      this.up, this.count, this.transformer := up, count, transformer;
      dropped := 0;
      doneSkipping := false;
      Emitted := [];
      start := up.pos;
    }

    /** Skips what is left to skip, then returns the next result. */
    method Next() returns (r: Completion<Step>)
      requires Valid()
      modifies this, up
      ensures Valid()
      ensures Emitted == old(Emitted) + [r]
           || (up.Exhausted() && Emitted == old(Emitted) && r == Normal(Done(up.doneValue)))
      ensures up.pulls == old(up.pulls) + (up.pos - old(up.pos)) + (if Emitted == old(Emitted) then 1 else 0)
      ensures up.returnCalls == old(up.returnCalls) && up.throwCalls == old(up.throwCalls)
    {
      if doneSkipping {
        r := PullAfterSkipping();
      } else {
        r := SkipThenPull();
      }
    }

    /** next() once skipping is over: one pull, transformed. */
    method PullAfterSkipping() returns (r: Completion<Step>)
      requires Valid() && doneSkipping
      modifies this, up
      ensures Valid()
      ensures Emitted == old(Emitted) + [r]
           || (up.Exhausted() && Emitted == old(Emitted) && r == Normal(Done(up.doneValue)))
      ensures up.pulls == old(up.pulls) + (up.pos - old(up.pos)) + (if Emitted == old(Emitted) then 1 else 0)
      ensures up.returnCalls == old(up.returnCalls) && up.throwCalls == old(up.throwCalls)
    {
      var result := up.Next();
      if result.Normal? && result.value.Done? {
        assert old(up.pos) == |up.script|;
        r := result;
      } else {
        ConsumedStep(up.script, start, up.pos);
        r := TransformEntry(transformer, up.script[up.pos - 1]);
        Emitted := Emitted + [r];
      }
    }

    /** next() while skipping: drop values until `count` have been dropped,
        then mark skipping as done and return the result in hand. */
    method SkipThenPull() returns (r: Completion<Step>)
      requires Valid() && !doneSkipping
      modifies this, up
      ensures Valid()
      ensures Emitted == old(Emitted) + [r]
           || (up.Exhausted() && Emitted == old(Emitted) && r == Normal(Done(up.doneValue)))
      ensures up.pulls == old(up.pulls) + (up.pos - old(up.pos)) + (if Emitted == old(Emitted) then 1 else 0)
      ensures up.returnCalls == old(up.returnCalls) && up.throwCalls == old(up.throwCalls)
    {
      var result := SkipLoop();
      r := EndSkipping(result);
    }

    /** The result that ended the skipping loop: an error propagates and
        skipping goes on at the next call; otherwise skipping is over, and
        a value is transformed. */
    method EndSkipping(result: Completion<Step>) returns (r: Completion<Step>)
      requires Holding(result) && !doneSkipping
      requires !(result.Normal? && result.value.Yield? && dropped < count)
      modifies this`doneSkipping, this`Emitted
      ensures Valid()
      ensures result.Normal? && result.value.Done? ==>
        up.Exhausted() && Emitted == old(Emitted) && r == Normal(Done(up.doneValue))
      ensures !(result.Normal? && result.value.Done?) ==> Emitted == old(Emitted) + [r]
    {
      if result.Thrown? {
        SkipEnded(up.script, start, up.pos, count, transformer, Emitted, dropped);
        r := result;
        Emitted := Emitted + [r];
        return;
      }
      doneSkipping := true;
      if result.value.Done? {
        r := result;
      } else {
        SkipEnded(up.script, start, up.pos, count, transformer, Emitted, dropped);
        r := TransformEntry(transformer, up.script[up.pos - 1]);
        Emitted := Emitted + [r];
      }
    }

    /** `result` is the last pull while skipping: done at the end of the
        script, or the entry before the cursor, the earlier entries having
        been skipped or emitted. */
    ghost predicate Holding(result: Completion<Step>)
      reads this, up
    {
      && up.Valid()
      && start <= up.pos
      && if result.Normal? && result.value.Done? then
           && up.pos == |up.script| && result == Normal(Done(up.doneValue))
           && DropRun(up.script[start..up.pos], count, transformer) == DropTrace(Emitted, dropped, true)
         else
           && start < up.pos && result == Lift(up.script[up.pos - 1])
           && DropRun(up.script[start..up.pos - 1], count, transformer) == DropTrace(Emitted, dropped, true)
    }

    /** The skipping loop: pulls, dropping values while fewer than `count`
        have been dropped.  The last result pulled is returned unfed. */
    method SkipLoop() returns (result: Completion<Step>)
      requires Valid() && !doneSkipping
      modifies this`dropped, up
      ensures Holding(result) && old(up.pos) <= up.pos
      ensures !(result.Normal? && result.value.Yield? && dropped < count)
      ensures up.pulls == old(up.pulls) + (up.pos - old(up.pos)) + (if result.Normal? && result.value.Done? then 1 else 0)
      ensures up.returnCalls == old(up.returnCalls) && up.throwCalls == old(up.throwCalls)
    {
      result := up.Next();
      while result.Normal? && result.value.Yield? && dropped < count
        invariant Holding(result) && old(up.pos) <= up.pos
        invariant up.pulls == old(up.pulls) + (up.pos - old(up.pos)) + (if result.Normal? && result.value.Done? then 1 else 0)
        invariant up.returnCalls == old(up.returnCalls) && up.throwCalls == old(up.throwCalls)
        decreases |up.script| - up.pos + (if result.Normal? && result.value.Yield? then 1 else 0)
      {
        result := SkipAndPull(result);
      }
    }

    /** One round of the loop: the value in hand is dropped, the next entry
        is pulled. */
    method SkipAndPull(previous: Completion<Step>) returns (result: Completion<Step>)
      requires Holding(previous) && previous.Normal? && previous.value.Yield? && dropped < count
      modifies this`dropped, up
      ensures Holding(result)
      ensures result.Normal? && result.value.Done? ==> up.pos == old(up.pos)
      ensures !(result.Normal? && result.value.Done?) ==> up.pos == old(up.pos) + 1
      ensures up.pulls == old(up.pulls) + 1
      ensures up.returnCalls == old(up.returnCalls) && up.throwCalls == old(up.throwCalls)
    {
      SkippedOne(up.script, start, up.pos, count, transformer, Emitted, dropped);
      dropped := dropped + 1;
      result := up.Next();
    }
  }

  // ---------------------------------------------------------------- slice

  /** Results so far and the number of values consumed. */
  datatype Progress = Progress(outs: seq<Completion<Step>>, index: nat)

  /** One upstream pull as SliceIterator.next() treats it.  Errors from the
      pull propagate and are not counted; values before `startIndex` are
      skipped; later ones are transformed, the index being bumped first. */
  function SliceFeed(t: Progress, c: Completion<Value>, startIndex: nat, transformer: Option<Transformer>): Progress {
    match c
    case Thrown(e) => Progress(t.outs + [Thrown(e)], t.index)
    case Normal(x) =>
      if t.index < startIndex then Progress(t.outs, t.index + 1)
      else Progress(t.outs + [TransformEntry(transformer, c)], t.index + 1)
  }

  function SliceRun(s: seq<Completion<Value>>, startIndex: nat, transformer: Option<Transformer>): Progress
    decreases |s|
  {
    if s == [] then Progress([], 0)
    else SliceFeed(SliceRun(s[..|s| - 1], startIndex, transformer), s[|s| - 1], startIndex, transformer)
  }

  /** SliceRun over a consumed prefix that grew by one entry. */
  lemma SliceRunStep(script: seq<Completion<Value>>, lo: nat, hi: nat, startIndex: nat, transformer: Option<Transformer>)
    requires lo < hi <= |script|
    ensures SliceRun(script[lo..hi], startIndex, transformer)
         == SliceFeed(SliceRun(script[lo..hi - 1], startIndex, transformer), script[hi - 1], startIndex, transformer)
  {
    ConsumedStep(script, lo, hi);
  }

  /** The inductive step of SliceRunMeaning, for one more value `x`. */
  lemma SliceStep(t0: Progress, ys: seq<Value>, x: Value, startIndex: nat, transformer: Option<Transformer>)
    requires TransformNeverThrows(transformer)
    requires t0.outs == Yields(Drop(ys, startIndex)) && t0.index == |ys|
    ensures var t := SliceFeed(t0, Normal(x), startIndex, transformer);
      t.outs == Yields(Drop(ys + [Transformed(transformer, x)], startIndex)) && t.index == |ys| + 1
  {
    var y := Transformed(transformer, x);
    assert TransformEntry(transformer, Normal(x)) == Normal(Yield(y));
    DropSnoc(ys, y, startIndex);
    YieldsSnoc(Drop(ys, startIndex), y);
  }

  /** Without errors, slice has yielded the transformed values from
      position `startIndex` on, and counted every value consumed. */
  lemma {:induction false} SliceRunMeaning(s: seq<Completion<Value>>, startIndex: nat, transformer: Option<Transformer>)
    requires AllNormal(s) && TransformNeverThrows(transformer)
    ensures var t := SliceRun(s, startIndex, transformer);
      t.outs == Yields(Drop(TransformAll(transformer, Values(s)), startIndex)) && t.index == |s|
    decreases |s|
  {
    if s != [] {
      var init := s[..|s| - 1];
      TransformAllSnoc(transformer, s);
      SliceRunMeaning(init, startIndex, transformer);
      var t0 := SliceRun(init, startIndex, transformer);
      assert SliceRun(s, startIndex, transformer) == SliceFeed(t0, s[|s| - 1], startIndex, transformer);
      SliceStep(t0, TransformAll(transformer, Values(init)), s[|s| - 1].value, startIndex, transformer);
    } else {
      assert Drop(TransformAll(transformer, Values(s)), startIndex) == [];
    }
  }

  /** Once slice has stopped (the index reached the end, or the upstream ran
      out), it has yielded `values.slice(start, end)`. */
  lemma SliceRunComplete(w: seq<Completion<Value>>, startIndex: nat, endIndex: Option<nat>, transformer: Option<Transformer>)
    requires AllNormal(w) && TransformNeverThrows(transformer)
    requires endIndex.Some? ==> startIndex < endIndex.value
    ensures var k := if endIndex.Some? then Min(endIndex.value, |w|) else |w|;
      && AllNormal(w[..k])
      && SliceRun(w[..k], startIndex, transformer).outs == Yields(Slice(TransformAll(transformer, Values(w)), startIndex, endIndex))
  {
    var k := if endIndex.Some? then Min(endIndex.value, |w|) else |w|;
    SliceRunMeaning(w[..k], startIndex, transformer);
    assert TransformAll(transformer, Values(w[..k])) == TransformAll(transformer, Values(w))[..k];
  }

  /** `new SliceIterator(iterator, startIndex, endIndex, transformer)`; slice()
      only builds one for a non-empty index range. */
  class SliceIterator {
    const up: Source
    const startIndex: nat
    const endIndex: Option<nat>
    const transformer: Option<Transformer>
    var index: nat
    var yielding: bool
    ghost var Emitted: seq<Completion<Step>>
    ghost const start: nat

    ghost predicate Valid()
      reads this, up
    {
      && up.Valid()
      && start <= up.pos
      && var t := SliceRun(up.script[start..up.pos], startIndex, transformer);
      && Emitted == t.outs
      && index == t.index
      && (yielding ==> startIndex <= index)
      && (!yielding ==> index <= startIndex)
      && (endIndex.Some? ==> startIndex < endIndex.value && index <= endIndex.value)
    }

    /** Past the end of the range: no more pulls. */
    predicate Finished()
      reads this
    {
      yielding && endIndex.Some? && index >= endIndex.value
    }

    constructor (up: Source, startIndex: nat, endIndex: Option<nat>, transformer: Option<Transformer>)
      requires up.Valid()
      requires endIndex.Some? ==> startIndex < endIndex.value
      ensures Valid()
      ensures this.up == up && this.startIndex == startIndex && this.endIndex == endIndex && this.transformer == transformer
      ensures index == 0 && !yielding && Emitted == []
    {
      this.up, this.startIndex, this.endIndex, this.transformer := up, startIndex, endIndex, transformer;
      index := 0;
      yielding := false;
      Emitted := [];
      start := up.pos;
    }

    /** One pull in the yielding phase; the index is bumped for a value
        before the transformer runs. */
    method GetNextValue() returns (r: Completion<Step>)
      requires Valid() && yielding && !Finished()
      modifies this, up
      ensures Valid() && yielding
      ensures old(up.pos) < |up.script| ==> up.pos == old(up.pos) + 1 && Emitted == old(Emitted) + [r]
      ensures old(up.pos) == |up.script| ==> up.pos == old(up.pos) && Emitted == old(Emitted) && r == Normal(Done(up.doneValue))
      ensures up.pulls == old(up.pulls) + 1
      ensures up.returnCalls == old(up.returnCalls) && up.throwCalls == old(up.throwCalls)
    {
      var result := up.Next();
      if result.Normal? && result.value.Done? {
        r := result;
        return;
      }
      SliceRunStep(up.script, start, up.pos, startIndex, transformer);
      if result.Normal? {
        index := index + 1;
      }
      r := TransformEntry(transformer, up.script[up.pos - 1]);
      Emitted := Emitted + [r];
    }

    method Next() returns (r: Completion<Step>)
      requires Valid()
      modifies this, up
      ensures Valid()
      ensures old(Finished()) ==>
        r == Normal(Done(Undefined)) && Emitted == old(Emitted) && up.pos == old(up.pos) && up.pulls == old(up.pulls)
      ensures !old(Finished()) ==>
        && (Emitted == old(Emitted) + [r]
            || (up.Exhausted() && Emitted == old(Emitted) && r == Normal(Done(up.doneValue))))
        && up.pulls == old(up.pulls) + (up.pos - old(up.pos)) + (if Emitted == old(Emitted) then 1 else 0)
      ensures up.returnCalls == old(up.returnCalls) && up.throwCalls == old(up.throwCalls)
    {
      if !yielding {
        r := SkipToStart();
      } else if endIndex.Some? && index >= endIndex.value {
        r := Normal(Done(Undefined));
      } else {
        r := GetNextValue();
      }
    }

    /** The first call: pull and discard values until the index reaches the
        start, then yield from there.  An error or done ends the call early
        and the next call goes on skipping. */
    method SkipToStart() returns (r: Completion<Step>)
      requires Valid() && !yielding
      modifies this, up
      ensures Valid()
      ensures Emitted == old(Emitted) + [r]
           || (up.Exhausted() && Emitted == old(Emitted) && r == Normal(Done(up.doneValue)))
      ensures up.pulls == old(up.pulls) + (up.pos - old(up.pos)) + (if Emitted == old(Emitted) then 1 else 0)
      ensures up.returnCalls == old(up.returnCalls) && up.throwCalls == old(up.throwCalls)
    {
      while index < startIndex
        invariant Valid() && !yielding && Emitted == old(Emitted)
        invariant old(up.pos) <= up.pos
        invariant up.pulls == old(up.pulls) + (up.pos - old(up.pos))
        invariant up.returnCalls == old(up.returnCalls) && up.throwCalls == old(up.throwCalls)
        decreases |up.script| - up.pos
      {
        var early := SkipStep();
        if early.Some? {
          r := early.value;
          return;
        }
      }
      yielding := true;
      r := GetNextValue();
    }

    /** One pull before the start: a value is discarded (`None`); done or
        an error ends the call early. */
    method SkipStep() returns (early: Option<Completion<Step>>)
      requires Valid() && !yielding && index < startIndex
      modifies this`index, this`Emitted, up
      ensures Valid()
      ensures up.pulls == old(up.pulls) + 1
      ensures up.returnCalls == old(up.returnCalls) && up.throwCalls == old(up.throwCalls)
      ensures early.None? ==> Emitted == old(Emitted) && up.pos == old(up.pos) + 1
      ensures early.Some? ==>
        || (Emitted == old(Emitted) + [early.value] && up.pos == old(up.pos) + 1)
        || (up.Exhausted() && Emitted == old(Emitted) && early.value == Normal(Done(up.doneValue)) && up.pos == old(up.pos))
    {
      var result := up.Next();
      if result.Normal? && result.value.Done? {
        early := Some(result);
        return;
      }
      SliceRunStep(up.script, start, up.pos, startIndex, transformer);
      if result.Thrown? {
        early := Some(result);
        Emitted := Emitted + [result];
        return;
      }
      index := index + 1;
      early := None;
    }
  }

  // ---------------------------------------------------------------- concat

  /** Without errors, concat yields the first handle's values transformed,
      then the second handle's values as they are. */
  lemma ConcatMeaning(first: seq<Completion<Value>>, second: seq<Completion<Value>>, transformer: Option<Transformer>)
    requires AllNormal(first) && AllNormal(second) && TransformNeverThrows(transformer)
    ensures TransformEntries(transformer, first) + TransformEntries(None, second)
         == Yields(TransformAll(transformer, Values(first)) + Values(second))
  {
    var lhs := TransformEntries(transformer, first) + TransformEntries(None, second);
    var rhs := Yields(TransformAll(transformer, Values(first)) + Values(second));
    forall i | 0 <= i < |lhs|
      ensures lhs[i] == rhs[i]
    {
      if i < |first| {
        assert Apply(transformer, first[i].value) == Normal(Transformed(transformer, first[i].value));
      }
    }
  }

  /** TransformEntries over a consumed prefix that grew by one entry. */
  lemma EntriesStep(script: seq<Completion<Value>>, lo: nat, hi: nat, transformer: Option<Transformer>)
    requires lo < hi <= |script|
    ensures TransformEntries(transformer, script[lo..hi])
         == TransformEntries(transformer, script[lo..hi - 1]) + [TransformEntry(transformer, script[hi - 1])]
  {
    ConsumedStep(script, lo, hi);
    TransformEntriesSnoc(transformer, script[lo..hi - 1], script[hi - 1]);
  }

  /** `new ConcatIterator(iterator, secondIterator, transformer)`: the
      second handle was resolved when concat() was called. */
  class ConcatIterator {
    const up: Source
    const second: Source
    const transformer: Option<Transformer>
    var firstDone: bool
    ghost var Emitted: seq<Completion<Step>>
    ghost const start: nat
    ghost const secondStart: nat

    ghost predicate Valid()
      reads this, up, second
    {
      && up.Valid() && second.Valid() && up != second
      && start <= up.pos && secondStart <= second.pos
      && (firstDone ==> up.Exhausted())
      && (!firstDone ==> second.pos == secondStart)
      && Emitted == TransformEntries(transformer, up.script[start..up.pos])
                    + TransformEntries(None, second.script[secondStart..second.pos])
    }

    constructor (up: Source, second: Source, transformer: Option<Transformer>)
      requires up.Valid() && second.Valid() && up != second
      ensures Valid()
      ensures this.up == up && this.second == second && this.transformer == transformer
      ensures !firstDone && Emitted == []
    {
      this.up, this.second, this.transformer := up, second, transformer;
      firstDone := false;
      Emitted := [];
      start := up.pos;
      secondStart := second.pos;
    }

    /** Pulls the first handle until it reports done, then the second. */
    method Next() returns (r: Completion<Step>)
      requires Valid()
      modifies this, up, second
      ensures Valid()
      ensures Emitted == old(Emitted) + [r]
           || (up.Exhausted() && second.Exhausted() && Emitted == old(Emitted) && r == Normal(Done(second.doneValue)))
      ensures up.returnCalls == old(up.returnCalls) && up.throwCalls == old(up.throwCalls)
      ensures second.returnCalls == old(second.returnCalls) && second.throwCalls == old(second.throwCalls)
    {
      if !firstDone {
        var result := up.Next();
        if result.Normal? && result.value.Done? {
          firstDone := true;
          r := GetNextFromOther();
        } else {
          EntriesStep(up.script, start, up.pos, transformer);
          r := TransformEntry(transformer, up.script[up.pos - 1]);
          Emitted := Emitted + [r];
        }
      } else {
        r := GetNextFromOther();
      }
    }

    /** One pull of the second handle, passed on without the transformer. */
    method GetNextFromOther() returns (r: Completion<Step>)
      requires Valid() && firstDone
      modifies this, second
      ensures Valid()
      ensures Emitted == old(Emitted) + [r]
           || (second.Exhausted() && Emitted == old(Emitted) && r == Normal(Done(second.doneValue)))
      ensures second.returnCalls == old(second.returnCalls) && second.throwCalls == old(second.throwCalls)
    {
      var result := second.Next();
      if result.Normal? && result.value.Done? {
        r := result;
      } else {
        EntriesStep(second.script, secondStart, second.pos, None);
        r := TransformEntry(None, second.script[second.pos - 1]);
        Emitted := Emitted + [r];
      }
    }

    /** `return()` is BaseIterator's: it releases the first handle only. */
    method Return() returns (r: Step)
      modifies up`returnCalls
      ensures up.returnCalls == old(up.returnCalls) + (if up.hasReturn then 1 else 0)
      ensures r == Done(Undefined)
    {
      r := BaseReturn(up);
    }
  }

  // ---------------------------------------------------------------- flatMap

  /** What flatMap makes of one callback result: an array, a string or any
      other value with `Symbol.iterator` is iterated, anything else is a
      single value. */
  function Spread(v: Value): (vs: seq<Value>)
    ensures IteratedElements(v).Some? ==> vs == IteratedElements(v).value
    ensures IteratedElements(v).None? ==> vs == [v]
  {
    match IteratedElements(v)
    case Some(elements) => elements
    case None => [v]
  }

  /** The reference flatMap over values: each value's callback result,
      spread, in order; each value is passed its own position. */
  function FlatMapped(callback: Callback, ys: seq<Value>): seq<Value>
    decreases |ys|
  {
    if ys == [] then []
    else
      var last := |ys| - 1;
      FlatMapped(callback, ys[..last])
        + (match callback(ys[last], last) case Normal(v) => Spread(v) case Thrown(_) => [])
  }

  lemma FlatMappedAppend(callback: Callback, ys: seq<Value>, y: Value)
    requires callback(y, |ys|).Normal?
    ensures FlatMapped(callback, ys + [y]) == FlatMapped(callback, ys) + Spread(callback(y, |ys|).value)
  {
    assert (ys + [y])[..|ys|] == ys;
  }

  /** One upstream pull as FlatMapIterator treats it.  An error from the pull
      propagates; a transformer error is reported to the upstream `throw()`
      and rethrown; a callback error propagates unreported, the index
      already bumped.  A callback result is spread into the output. */
  function FlatMapFeed(t: Trace, c: Completion<Value>, transformer: Option<Transformer>, callback: Callback): Trace {
    match c
    case Thrown(e) => Trace(t.outs + [Thrown(e)], t.index, t.routed)
    case Normal(x) =>
      match Apply(transformer, x)
      case Thrown(e) => Trace(t.outs + [Thrown(e)], t.index, t.routed + 1)
      case Normal(y) =>
        match callback(y, t.index)
        case Thrown(e) => Trace(t.outs + [Thrown(e)], t.index + 1, t.routed)
        case Normal(v) => Trace(t.outs + Yields(Spread(v)), t.index + 1, t.routed)
  }

  function FlatMapRun(s: seq<Completion<Value>>, transformer: Option<Transformer>, callback: Callback): Trace
    decreases |s|
  {
    if s == [] then Trace([], 0, 0)
    else FlatMapFeed(FlatMapRun(s[..|s| - 1], transformer, callback), s[|s| - 1], transformer, callback)
  }

  lemma FlatMapRunStep(script: seq<Completion<Value>>, lo: nat, hi: nat, transformer: Option<Transformer>, callback: Callback)
    requires lo < hi <= |script|
    ensures FlatMapRun(script[lo..hi], transformer, callback)
         == FlatMapFeed(FlatMapRun(script[lo..hi - 1], transformer, callback), script[hi - 1], transformer, callback)
  {
    ConsumedStep(script, lo, hi);
  }

  /** The inductive step of FlatMapRunMeaning, for one more value `x`. */
  lemma FlatMapStep(t0: Trace, ys: seq<Value>, x: Value, transformer: Option<Transformer>, callback: Callback)
    requires TransformNeverThrows(transformer) && callback(Transformed(transformer, x), |ys|).Normal?
    requires t0.outs == Yields(FlatMapped(callback, ys)) && t0.index == |ys| && t0.routed == 0
    ensures var t := FlatMapFeed(t0, Normal(x), transformer, callback);
      t.outs == Yields(FlatMapped(callback, ys + [Transformed(transformer, x)])) && t.index == |ys| + 1 && t.routed == 0
  {
    var y := Transformed(transformer, x);
    assert Apply(transformer, x) == Normal(y);
    FlatMappedAppend(callback, ys, y);
    YieldsAppend(FlatMapped(callback, ys), Spread(callback(y, |ys|).value));
  }

  /** A callback whose every result has `Symbol.iterator` (an array, a
      string, a Set, a Map, a generator object, any user-defined iterable)
      makes flatMap the concatenation of the elements those results'
      iterators yield, in order. */
  lemma {:induction false} FlatMappedIterables(callback: Callback, ys: seq<Value>)
    requires forall i :: 0 <= i < |ys| ==> callback(ys[i], i).Normal? && IteratedElements(callback(ys[i], i).value).Some?
    ensures FlatMapped(callback, ys)
         == Flatten(seq(|ys|, i requires 0 <= i < |ys| => IteratedElements(callback(ys[i], i).value).value))
    decreases |ys|
  {
    if ys != [] {
      var last := |ys| - 1;
      var init := ys[..last];
      assert forall i :: 0 <= i < |init| ==> init[i] == ys[i];
      FlatMappedIterables(callback, init);
      var parts := seq(|ys|, i requires 0 <= i < |ys| => IteratedElements(callback(ys[i], i).value).value);
      var parts0 := seq(|init|, i requires 0 <= i < |init| => IteratedElements(callback(init[i], i).value).value);
      assert parts == parts0 + [parts[last]];
      FlattenAppend(parts0, parts[last]);
    }
  }

  /** Without errors, flatMap yields the spread callback results of the
      transformed values, in order, and never calls the upstream `throw()`. */
  lemma {:induction false} FlatMapRunMeaning(s: seq<Completion<Value>>, transformer: Option<Transformer>, callback: Callback)
    requires AllNormal(s) && TransformNeverThrows(transformer) && CallbackNeverThrows(callback)
    ensures var t := FlatMapRun(s, transformer, callback);
      t.outs == Yields(FlatMapped(callback, TransformAll(transformer, Values(s)))) && t.index == |s| && t.routed == 0
    decreases |s|
  {
    if s != [] {
      var init := s[..|s| - 1];
      TransformAllSnoc(transformer, s);
      FlatMapRunMeaning(init, transformer, callback);
      var t0 := FlatMapRun(init, transformer, callback);
      assert FlatMapRun(s, transformer, callback) == FlatMapFeed(t0, s[|s| - 1], transformer, callback);
      var x := s[|s| - 1].value;
      assert callback(Transformed(transformer, x), |init|).Normal?;
      FlatMapStep(t0, TransformAll(transformer, Values(init)), x, transformer, callback);
    } else {
      assert Yields([]) == [];
    }
  }

  /** Moving the first pending value over to the emitted results. */
  lemma YieldsFirst(emitted: seq<Completion<Step>>, pending: seq<Value>)
    requires pending != []
    ensures emitted + Yields(pending) == (emitted + [Normal(Yield(pending[0]))]) + Yields(pending[1..])
  {
    assert Yields(pending) == [Normal(Yield(pending[0]))] + Yields(pending[1..]);
  }

  /** `new FlatMapIterator(iterator, callback, transformer)`.  The current
      sub-iterator is represented by the elements it has left. */
  class FlatMapIterator {
    const up: Source
    const callback: Callback
    const transformer: Option<Transformer>
    var index: nat
    var sub: Option<seq<Value>>
    ghost var Emitted: seq<Completion<Step>>
    ghost const start: nat
    ghost const throwBase: nat

    function Pending(): seq<Value>
      reads this
    {
      if sub.Some? then sub.value else []
    }

    /** What was emitted, followed by what the sub-iterator still holds, is
        what flatMap makes of the entries consumed. */
    ghost predicate Valid()
      reads this, up
    {
      && up.Valid()
      && start <= up.pos
      && var t := FlatMapRun(up.script[start..up.pos], transformer, callback);
      && Emitted + Yields(Pending()) == t.outs
      && index == t.index
      && up.throwCalls == throwBase + ThrowCalls(up.throwCap, t.routed)
    }

    constructor (up: Source, callback: Callback, transformer: Option<Transformer>)
      requires up.Valid()
      ensures Valid()
      ensures this.up == up && this.callback == callback && this.transformer == transformer
      ensures index == 0 && sub.None? && Emitted == []
    {
      this.up, this.callback, this.transformer := up, callback, transformer;
      index := 0;
      sub := None;
      Emitted := [];
      start := up.pos;
      throwBase := up.throwCalls;
      new;
      assert Yields([]) == [];
    }

    /** Drains the sub-iterator first; when it is empty, pulls the upstream
        until an entry produces something.  When the upstream is done,
        reports `{done: true, value: undefined}`. */
    method Next() returns (r: Completion<Step>)
      requires Valid()
      modifies this, up
      ensures Valid()
      ensures Emitted == old(Emitted) + [r]
           || (up.Exhausted() && Emitted == old(Emitted) && Pending() == [] && r == Normal(Done(Undefined)))
      ensures up.pulls == old(up.pulls) + (up.pos - old(up.pos)) + (if Emitted == old(Emitted) then 1 else 0)
      ensures up.returnCalls == old(up.returnCalls)
    {
      while true
        invariant Valid() && Emitted == old(Emitted)
        invariant old(up.pos) <= up.pos
        invariant up.pulls == old(up.pulls) + (up.pos - old(up.pos))
        invariant up.returnCalls == old(up.returnCalls)
        decreases |up.script| - up.pos
      {
        if sub.Some? {
          if sub.value != [] {
            r := NextFromSub();
            return;
          }
          sub := None;
        }
        var again: bool;
        r, again := GetNextFromMain();
        if !again {
          return;
        }
      }
    }

    /** The sub-iterator's next element. */
    method NextFromSub() returns (r: Completion<Step>)
      requires Valid() && sub.Some? && sub.value != []
      modifies this`sub, this`Emitted
      ensures Valid()
      ensures r == Normal(Yield(old(sub.value[0]))) && Emitted == old(Emitted) + [r]
      ensures sub == Some(old(sub.value[1..]))
    {
      var v := sub.value[0];
      var rest := sub.value[1..];
      YieldsFirst(Emitted, sub.value);
      sub := Some(rest);
      r := Normal(Yield(v));
      Emitted := Emitted + [r];
    }

    /** One pull of the upstream (`#getNextFromMain`).  When the callback
        returned something iterable, it becomes the new sub-iterator and
        `again` asks the caller to start over. */
    method GetNextFromMain() returns (r: Completion<Step>, again: bool)
      requires Valid() && Pending() == []
      modifies this, up
      ensures Valid()
      ensures again ==> Emitted == old(Emitted) && up.pos == old(up.pos) + 1
      ensures !again && Emitted == old(Emitted) ==> up.pos == old(up.pos)
      ensures Emitted != old(Emitted) ==> up.pos == old(up.pos) + 1
      ensures !again ==>
        || Emitted == old(Emitted) + [r]
        || (up.Exhausted() && Emitted == old(Emitted) && Pending() == [] && r == Normal(Done(Undefined)))
      ensures up.pulls == old(up.pulls) + 1
      ensures up.returnCalls == old(up.returnCalls)
    {
      assert Emitted + Yields([]) == Emitted;
      again := false;
      var result := up.Next();
      if result.Normal? && result.value.Done? {
        r := Normal(Done(Undefined));
        return;
      }
      if result.Thrown? {
        r := PassMainError(result.error);
        return;
      }
      r, again := ProcessMainResult(result.value.value);
    }

    /** An error from the upstream's own `next()` propagates. */
    method PassMainError(e: Value) returns (r: Completion<Step>)
      requires Pulled(Thrown(e))
      modifies this`Emitted
      ensures Valid()
      ensures r == Thrown(e) && Emitted == old(Emitted) + [r]
    {
      FlatMapRunStep(up.script, start, up.pos, transformer, callback);
      r := Thrown(e);
      Emitted := Emitted + [r];
    }

    /** Valid, but for the last pulled entry `c`, which has not been
        processed yet; the sub-iterator is used up. */
    ghost predicate Pulled(c: Completion<Value>)
      reads this, up
    {
      && up.Valid()
      && start < up.pos
      && up.script[up.pos - 1] == c
      && Pending() == []
      && var t := FlatMapRun(up.script[start..up.pos - 1], transformer, callback);
      && Emitted == t.outs
      && index == t.index
      && up.throwCalls == throwBase + ThrowCalls(up.throwCap, t.routed)
    }

    /** `#processMainResult` for a pulled value: a transform error is
        reported to the upstream `throw()` and rethrown. */
    method ProcessMainResult(x: Value) returns (r: Completion<Step>, again: bool)
      requires Pulled(Normal(x))
      modifies this`index, this`sub, this`Emitted, up`throwCalls
      ensures Valid()
      ensures again ==> Emitted == old(Emitted)
      ensures !again ==> Emitted == old(Emitted) + [r]
    {
      var y := Apply(transformer, x);
      if y.Thrown? {
        r := ReportTransformError(x, y.error);
        again := false;
      } else {
        r, again := ProcessCallbackResult(x, y.value);
      }
    }

    /** The catch block: the transformer's error `e` on a pulled `x` goes to
        the upstream `throw()` and is rethrown. */
    method ReportTransformError(ghost x: Value, e: Value) returns (r: Completion<Step>)
      requires Pulled(Normal(x)) && Apply(transformer, x) == Thrown(e)
      modifies this`Emitted, up`throwCalls
      ensures Valid()
      ensures r == Thrown(e) && Emitted == old(Emitted) + [r]
    {
      FlatMapRunStep(up.script, start, up.pos, transformer, callback);
      FailIfPossible(up, e);
      r := Thrown(e);
      Emitted := Emitted + [r];
    }

    /** The callback on the transformed value `y` of a pulled `x`, with the
        index bumped, and `#processCallbackResult`: an iterable result
        becomes the sub-iterator, anything else is the next value. */
    method ProcessCallbackResult(ghost x: Value, y: Value) returns (r: Completion<Step>, again: bool)
      requires Pulled(Normal(x)) && Apply(transformer, x) == Normal(y)
      modifies this`index, this`sub, this`Emitted
      ensures Valid()
      ensures again ==> Emitted == old(Emitted)
      ensures !again ==> Emitted == old(Emitted) + [r]
    {
      FlatMapRunStep(up.script, start, up.pos, transformer, callback);
      again := false;
      var i := index;
      index := index + 1;
      var answer := callback(y, i);
      if answer.Thrown? {
        r := Thrown(answer.error);
        Emitted := Emitted + [r];
        return;
      }
      var elements := IteratedElements(answer.value);
      if elements.Some? {
        sub := Some(elements.value);
        again := true;
        r := Normal(Done(Undefined));
      } else {
        r := Normal(Yield(answer.value));
        Emitted := Emitted + [r];
        assert Yields(Spread(answer.value)) == [r];
      }
    }
  }

  // ---------------------------------------------------------------- mapError

  /** What mapError makes of an error: the catch callback's result, or the
      error itself when there is no callback; an error thrown by the catch
      callback propagates. */
  function Recover(err: Value, catchCallback: Option<Transformer>): (r: Completion<Step>)
    ensures catchCallback.None? ==> r == Normal(Yield(err))
  {
    match catchCallback
    case None => Normal(Yield(err))
    case Some(f) =>
      match f(err)
      case Normal(v) => Normal(Yield(v))
      case Thrown(e) => Thrown(e)
  }

  /** One upstream pull as ErrorMappingIterator.next() treats it: an error
      from the pull or from the transformer is recovered. */
  function ErrorMapEntry(c: Completion<Value>, transformer: Option<Transformer>, catchCallback: Option<Transformer>): Completion<Step> {
    match c
    case Thrown(e) => Recover(e, catchCallback)
    case Normal(x) =>
      match Apply(transformer, x)
      case Thrown(e) => Recover(e, catchCallback)
      case Normal(y) => Normal(Yield(y))
  }

  function ErrorMapRun(s: seq<Completion<Value>>, transformer: Option<Transformer>, catchCallback: Option<Transformer>): (outs: seq<Completion<Step>>)
    ensures |outs| == |s|
    decreases |s|
  {
    if s == [] then []
    else ErrorMapRun(s[..|s| - 1], transformer, catchCallback) + [ErrorMapEntry(s[|s| - 1], transformer, catchCallback)]
  }

  lemma RecoveredEntry(c: Completion<Value>, transformer: Option<Transformer>, catchCallback: Option<Transformer>)
    requires catchCallback.None? || NeverThrows(catchCallback.value)
    ensures ErrorMapEntry(c, transformer, catchCallback).Normal?
    ensures ErrorMapEntry(c, transformer, catchCallback).value.Yield?
  {
    var err := if c.Thrown? then c.error else if Apply(transformer, c.value).Thrown? then Apply(transformer, c.value).error else Undefined;
    if catchCallback.Some? {
      assert catchCallback.value(err).Normal?;
    }
  }

  /** With no catch callback, or one that never throws, mapError never
      throws: every pull, failed or not, yields a value. */
  lemma {:induction false} ErrorMapRunNeverThrows(s: seq<Completion<Value>>, transformer: Option<Transformer>, catchCallback: Option<Transformer>)
    requires catchCallback.None? || NeverThrows(catchCallback.value)
    ensures var outs := ErrorMapRun(s, transformer, catchCallback);
      forall i :: 0 <= i < |s| ==> outs[i].Normal? && outs[i].value.Yield?
    decreases |s|
  {
    if s != [] {
      var init := s[..|s| - 1];
      ErrorMapRunNeverThrows(init, transformer, catchCallback);
      var outs0 := ErrorMapRun(init, transformer, catchCallback);
      assert var o := ErrorMapRun(init, transformer, catchCallback); forall i :: 0 <= i < |init| ==> o[i].Normal? && o[i].value.Yield?;
      assert forall i :: 0 <= i < |init| ==> outs0[i].Normal? && outs0[i].value.Yield?;
      var c := s[|s| - 1];
      assert ErrorMapRun(s, transformer, catchCallback) == outs0 + [ErrorMapEntry(c, transformer, catchCallback)];
      RecoveredEntry(c, transformer, catchCallback);
      var outs := ErrorMapRun(s, transformer, catchCallback);
      forall i | 0 <= i < |s|
        ensures outs[i].Normal? && outs[i].value.Yield?
      {
        if i < |s| - 1 {
          assert outs[i] == outs0[i];
          assert outs0[i].Normal? && outs0[i].value.Yield?;
        } else {
          assert outs[i] == ErrorMapEntry(c, transformer, catchCallback);
        }
      }
    }
  }

  /** An error from a pull or from the transformer is replaced by what the
      catch callback makes of it, at the same position; a value the
      transformer accepts passes through transformed. */
  lemma {:induction false} ErrorMapRunMeaning(s: seq<Completion<Value>>, transformer: Option<Transformer>, catchCallback: Option<Transformer>)
    ensures var outs := ErrorMapRun(s, transformer, catchCallback);
      forall i :: 0 <= i < |s| && s[i].Thrown? ==> outs[i] == Recover(s[i].error, catchCallback)
    ensures var outs := ErrorMapRun(s, transformer, catchCallback);
      forall i :: 0 <= i < |s| && s[i].Normal? && Apply(transformer, s[i].value).Thrown? ==>
        outs[i] == Recover(Apply(transformer, s[i].value).error, catchCallback)
    ensures var outs := ErrorMapRun(s, transformer, catchCallback);
      forall i :: 0 <= i < |s| && s[i].Normal? && Apply(transformer, s[i].value).Normal? ==>
        outs[i] == Normal(Yield(Apply(transformer, s[i].value).value))
    ensures AllNormal(s) && TransformNeverThrows(transformer) ==>
      ErrorMapRun(s, transformer, catchCallback) == Yields(TransformAll(transformer, Values(s)))
    decreases |s|
  {
    if s != [] {
      var init := s[..|s| - 1];
      ErrorMapRunMeaning(init, transformer, catchCallback);
      var outs0 := ErrorMapRun(init, transformer, catchCallback);
      var outs := ErrorMapRun(s, transformer, catchCallback);
      assert outs == outs0 + [ErrorMapEntry(s[|s| - 1], transformer, catchCallback)];
      forall i | 0 <= i < |s|
        ensures s[i].Thrown? ==> outs[i] == Recover(s[i].error, catchCallback)
        ensures s[i].Normal? && Apply(transformer, s[i].value).Thrown? ==>
          outs[i] == Recover(Apply(transformer, s[i].value).error, catchCallback)
        ensures s[i].Normal? && Apply(transformer, s[i].value).Normal? ==>
          outs[i] == Normal(Yield(Apply(transformer, s[i].value).value))
      {
        if i < |init| {
          assert s[i] == init[i];
          assert outs[i] == outs0[i];
        } else {
          assert outs[i] == ErrorMapEntry(s[i], transformer, catchCallback);
        }
      }
      if AllNormal(s) && TransformNeverThrows(transformer) {
        TransformAllSnoc(transformer, s);
        var y := Transformed(transformer, s[|s| - 1].value);
        YieldsSnoc(TransformAll(transformer, Values(init)), y);
      }
    } else if TransformNeverThrows(transformer) {
      assert Yields(TransformAll(transformer, Values(s))) == [];
    }
  }

  lemma ErrorMapRunStep(script: seq<Completion<Value>>, lo: nat, hi: nat, transformer: Option<Transformer>, catchCallback: Option<Transformer>)
    requires lo < hi <= |script|
    ensures ErrorMapRun(script[lo..hi], transformer, catchCallback)
         == ErrorMapRun(script[lo..hi - 1], transformer, catchCallback) + [ErrorMapEntry(script[hi - 1], transformer, catchCallback)]
  {
    ConsumedStep(script, lo, hi);
  }

  /** `new ErrorMappingIterator(iterator, catchCallback, transformer)`. */
  class ErrorMappingIterator {
    const up: Source
    const catchCallback: Option<Transformer>
    const transformer: Option<Transformer>
    ghost var Emitted: seq<Completion<Step>>
    ghost const start: nat

    ghost predicate Valid()
      reads this, up
    {
      && up.Valid()
      && start <= up.pos
      && Emitted == ErrorMapRun(up.script[start..up.pos], transformer, catchCallback)
    }

    constructor (up: Source, catchCallback: Option<Transformer>, transformer: Option<Transformer>)
      requires up.Valid()
      ensures Valid()
      ensures this.up == up && this.catchCallback == catchCallback && this.transformer == transformer
      ensures Emitted == []
    {
      this.up, this.catchCallback, this.transformer := up, catchCallback, transformer;
      Emitted := [];
      start := up.pos;
    }

    /** One pull; an error from it or from the transformer is returned as a
        value, through the catch callback when there is one. */
    method Next() returns (r: Completion<Step>)
      requires Valid()
      modifies this, up
      ensures Valid()
      ensures old(up.pos) < |up.script| ==> up.pos == old(up.pos) + 1 && Emitted == old(Emitted) + [r]
      ensures old(up.pos) == |up.script| ==> up.pos == old(up.pos) && Emitted == old(Emitted) && r == Normal(Done(up.doneValue))
      ensures up.pulls == old(up.pulls) + 1
      ensures up.returnCalls == old(up.returnCalls) && up.throwCalls == old(up.throwCalls)
    {
      var result := up.Next();
      if result.Normal? && result.value.Done? {
        r := result;
        return;
      }
      ErrorMapRunStep(up.script, start, up.pos, transformer, catchCallback);
      var error: Value;
      if result.Thrown? {
        error := result.error;
      } else {
        var y := Apply(transformer, result.value.value);
        if y.Normal? {
          r := Normal(Yield(y.value));
          Emitted := Emitted + [r];
          return;
        }
        error := y.error;
      }
      if catchCallback.Some? {
        var mapped := catchCallback.value(error);
        if mapped.Thrown? {
          r := Thrown(mapped.error);
        } else {
          r := Normal(Yield(mapped.value));
        }
      } else {
        r := Normal(Yield(error));
      }
      Emitted := Emitted + [r];
    }
  }

  // ---------------------------------------------------------------- chaining

  /** The results of one link of a chain, read as the pulls of the next.
      A combinator wraps its decorator in a new ExtendedIterable without a
      transformer, so the next link reads these results untransformed. */
  function AsPulls(outs: seq<Completion<Step>>): (s: seq<Completion<Value>>)
    ensures |s| == |outs|
  {
    seq(|outs|, i requires 0 <= i < |outs| =>
      match outs[i]
      case Thrown(e) => Thrown(e)
      case Normal(st) => Normal(st.value))
  }

  /** `iterable.map(f).filter(g)`: without errors, the chain yields the
      mapped values `f(transform(x_i), i)` that `g` accepts, each judged at
      its position among the mapped values.  The wrapper's transformer is
      applied exactly once per element: the filter link has none. */
  lemma MapThenFilter(s: seq<Completion<Value>>, cap: ThrowCapability, transformer: Option<Transformer>, f: Callback, g: Callback)
    requires AllNormal(s) && TransformNeverThrows(transformer) && CallbackNeverThrows(f) && CallbackNeverThrows(g)
    ensures var mapped := seq(|s|, i requires 0 <= i < |s| => f(Transformed(transformer, s[i].value), i).value);
      FilterRun(AsPulls(MapRun(s, transformer, f).outs), cap, None, g).outs == Yields(FilterIndexed(Accepts(g), mapped))
  {
    var mapped := seq(|s|, i requires 0 <= i < |s| => f(Transformed(transformer, s[i].value), i).value);
    MapRunMeaning(s, transformer, f);
    var pulls := AsPulls(MapRun(s, transformer, f).outs);
    assert AllNormal(pulls);
    assert TransformAll(None, Values(pulls)) == mapped;
    FilterRunMeaning(pulls, cap, None, g);
  }

  /** `iterable.take(limit).map(f)`: without errors, the chain yields
      `f(transform(x_i), i)` for the first `limit` values, the transformer
      applied once by the take link and the map link having none. */
  lemma TakeThenMap(w: seq<Completion<Value>>, transformer: Option<Transformer>, limit: nat, f: Callback)
    requires AllNormal(w) && TransformNeverThrows(transformer) && CallbackNeverThrows(f)
    ensures var taken := AsPulls(TakeRun(w[..Min(limit, |w|)], transformer).outs);
      var outs := MapRun(taken, None, f).outs;
      && |outs| == Min(limit, |w|)
      && forall i :: 0 <= i < |outs| ==> outs[i] == Normal(Yield(f(Transformed(transformer, w[i].value), i).value))
  {
    TakeRunComplete(w, transformer, limit);
    var taken := AsPulls(TakeRun(w[..Min(limit, |w|)], transformer).outs);
    assert AllNormal(taken);
    MapRunMeaning(taken, None, f);
  }
}
