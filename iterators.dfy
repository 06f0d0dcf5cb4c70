/** The stand-alone iterator classes of src/iterators: BaseIterator, which
    forwards `next`, `return` and `throw` to the iterator it wraps, and the
    FilterIterator and TakeIterator built on it.  Inheritance is modelled
    by composition: each subclass holds its BaseIterator as `base`. */
module Iterators {
  import opened JsValues
  import opened Sequences
  import opened Handles
  import opened Arguments
  import E = ExtendedDecorators
  import S = SyncDecorators

  /** `class BaseIterator`: the iterator it wraps is `up`. */
  class BaseIterator {
    const up: Source

    constructor (up: Source)
      ensures this.up == up
    {
      this.up := up;
    }

    /** `next()` forwards. */
    method Next() returns (r: Completion<Step>)
      requires up.Valid()
      modifies up
      ensures up.Valid()
      ensures old(up.pos) < |up.script| ==> up.pos == old(up.pos) + 1 && r == Lift(up.script[old(up.pos)])
      ensures old(up.pos) == |up.script| ==> up.pos == old(up.pos) && r == Normal(Done(up.doneValue))
      ensures up.pulls == old(up.pulls) + 1
      ensures up.returnCalls == old(up.returnCalls) && up.throwCalls == old(up.throwCalls)
    {
      r := up.Next();
    }

    /** `return(value)`: the wrapped `return(value)` when there is one,
        else `{done: true, value}`; either way the value comes back. */
    method Return(value: Value) returns (r: Step)
      modifies up`returnCalls
      ensures r == Done(value)
      ensures up.returnCalls == old(up.returnCalls) + (if up.hasReturn then 1 else 0)
    {
      if up.hasReturn {
        r := up.Return(value);
      } else {
        r := Done(value);
      }
    }

    /** `throw(err)`: the wrapped `throw(err)` when there is one, whose
        outcome is returned; else `err` is thrown. */
    method Throw(err: Value) returns (r: Completion<Step>)
      modifies up`throwCalls
      ensures r == ThrowOutcome(up.throwCap, err)
      ensures r.Thrown? <==> up.throwCap != Completes
      ensures up.throwCalls == old(up.throwCalls) + ThrowCalls(up.throwCap, 1)
    {
      r := BaseThrow(up, err);
    }
  }

  // ---------------------------------------------------------------- filter

  /** `new FilterIterator(iterator, callback)`.  A callback that is not a
      function is reported to `throw()`; the construction fails unless the
      wrapped `throw()` completes, in which case it goes on with that
      callback, which then fails at every call. */
  method NewFilterIterator(up: Source, callback: FnArg<Callback>) returns (r: Completion<FilterIterator>)
    requires up.Valid()
    modifies up`throwCalls
    ensures callback.Function? ==> r.Normal? && up.throwCalls == old(up.throwCalls)
    ensures callback.NotFunction? ==>
      && up.throwCalls == old(up.throwCalls) + ThrowCalls(up.throwCap, 1)
      && (r.Thrown? <==> up.throwCap != Completes)
    ensures r.Thrown? ==> r.error == TypeErrorOf(CallbackMessage)
    ensures r.Normal? ==>
      && fresh(r.value) && fresh(r.value.base) && r.value.Valid()
      && r.value.base.up == up && r.value.callback == S.Invoked(callback)
      && r.value.Emitted == [] && r.value.index == 0
  {
    var base := new BaseIterator(up);
    if callback.NotFunction? {
      var outcome := base.Throw(TypeErrorOf(CallbackMessage));
      if outcome.Thrown? {
        r := Thrown(outcome.error);
        return;
      }
    }
    var it := new FilterIterator(base, S.Invoked(callback));
    r := Normal(it);
  }

  /** `class FilterIterator`, synchronous path.  Pull by pull it is
      E.FilterRun without a transformer: a callback error goes to `throw()`,
      whose outcome is returned, and every such report is one more
      upstream `throw()` call when the upstream has one. */
  class FilterIterator {
    const base: BaseIterator
    const callback: Callback
    var index: nat
    ghost var Emitted: seq<Completion<Step>>
    ghost const start: nat
    ghost const throwCalls0: nat

    ghost predicate Valid()
      reads this, base.up
    {
      && base.up.Valid()
      && start <= base.up.pos
      && var t := E.FilterRun(base.up.script[start..base.up.pos], base.up.throwCap, None, callback);
      && Emitted == t.outs
      && index == t.index
      && base.up.throwCalls == throwCalls0 + ThrowCalls(base.up.throwCap, t.routed)
    }

    constructor (base: BaseIterator, callback: Callback)
      requires base.up.Valid()
      ensures Valid()
      ensures this.base == base && this.callback == callback
      ensures index == 0 && Emitted == []
    {
      this.base, this.callback := base, callback;
      index := 0;
      Emitted := [];
      start := base.up.pos;
      throwCalls0 := base.up.throwCalls;
    }

    /** Pulls until a value is kept or the callback fails; at exhaustion the
        upstream's done result is returned.  An error from the pull itself
        propagates. */
    method Next() returns (r: Completion<Step>)
      requires Valid()
      modifies this, base.up
      ensures Valid()
      ensures Emitted == old(Emitted) + [r]
           || (base.up.Exhausted() && Emitted == old(Emitted) && r == Normal(Done(base.up.doneValue)))
      ensures base.up.pulls == old(base.up.pulls) + (base.up.pos - old(base.up.pos)) + (if Emitted == old(Emitted) then 1 else 0)
      ensures base.up.returnCalls == old(base.up.returnCalls)
    {
      while true
        invariant Valid() && Emitted == old(Emitted)
        invariant old(base.up.pos) <= base.up.pos
        invariant base.up.pulls == old(base.up.pulls) + (base.up.pos - old(base.up.pos))
        invariant base.up.returnCalls == old(base.up.returnCalls)
        decreases |base.up.script| - base.up.pos
      {
        var step := PullOnce();
        if step.Some? {
          r := step.value;
          return;
        }
      }
    }

    /** One round of the loop: a pull, and a pulled value processed.
        `None` asks for another round. */
    method PullOnce() returns (step: Option<Completion<Step>>)
      requires Valid()
      modifies this, base.up
      ensures Valid()
      ensures base.up.pulls == old(base.up.pulls) + 1 && base.up.returnCalls == old(base.up.returnCalls)
      ensures step.None? ==> Emitted == old(Emitted) && base.up.pos == old(base.up.pos) + 1
      ensures step.Some? ==>
        || (Emitted == old(Emitted) + [step.value] && base.up.pos == old(base.up.pos) + 1)
        || (base.up.Exhausted() && Emitted == old(Emitted) && step.value == Normal(Done(base.up.doneValue)) && base.up.pos == old(base.up.pos))
    {
      var result := base.Next();
      if result.Normal? && result.value.Done? {
        step := Some(result);
        return;
      }
      if result.Thrown? {
        var r := PassError(result.error);
        step := Some(r);
        return;
      }
      step := ProcessResult(result.value.value);
    }

    /** An error from the wrapped `next()` propagates. */
    method PassError(e: Value) returns (r: Completion<Step>)
      requires Pulled(Thrown(e))
      modifies this`Emitted
      ensures Valid()
      ensures r == Thrown(e) && Emitted == old(Emitted) + [r]
    {
      E.FilterRunStep(base.up.script, start, base.up.pos, base.up.throwCap, None, callback);
      r := Thrown(e);
      Emitted := Emitted + [r];
    }

    /** Valid, but for the last pulled entry `c`, which has not been
        processed yet. */
    ghost predicate Pulled(c: Completion<Value>)
      reads this, base.up
    {
      && base.up.Valid()
      && start < base.up.pos
      && base.up.script[base.up.pos - 1] == c
      && var t := E.FilterRun(base.up.script[start..base.up.pos - 1], base.up.throwCap, None, callback);
      && Emitted == t.outs
      && index == t.index
      && base.up.throwCalls == throwCalls0 + ThrowCalls(base.up.throwCap, t.routed)
    }

    /** `#processResult`: the callback is asked with the index bumped; a
        failure goes to `throw()`; a kept value is returned untransformed. */
    method ProcessResult(x: Value) returns (rval: Option<Completion<Step>>)
      requires Pulled(Normal(x))
      modifies this`index, this`Emitted, base.up`throwCalls
      ensures Valid()
      ensures rval.Some? ==> Emitted == old(Emitted) + [rval.value]
      ensures rval.None? ==> Emitted == old(Emitted)
    {
      E.FilterRunStep(base.up.script, start, base.up.pos, base.up.throwCap, None, callback);
      var i := index;
      index := index + 1;
      var keep := callback(x, i);
      if keep.Thrown? {
        var outcome := base.Throw(keep.error);
        rval := Some(outcome);
      } else if Truthy(keep.value) {
        rval := Some(Normal(Yield(x)));
      } else {
        rval := None;
      }
      if rval.Some? {
        Emitted := Emitted + [rval.value];
      }
    }
  }

  // ---------------------------------------------------------------- take

  /** What TakeIterator.next() makes of one upstream entry below the limit:
      a failed pull goes to `throw()`, whose outcome is returned; a value
      passes untransformed. */
  function LimitEntry(c: Completion<Value>, cap: ThrowCapability): (r: Completion<Step>)
    ensures c.Normal? ==> r == Normal(Yield(c.value))
    ensures c.Thrown? ==> r == ThrowOutcome(cap, c.error)
  {
    match c
    case Normal(x) => Normal(Yield(x))
    case Thrown(e) => ThrowOutcome(cap, e)
  }

  function LimitFeed(t: E.Trace, c: Completion<Value>, cap: ThrowCapability): E.Trace {
    match c
    case Thrown(e) => E.Trace(t.outs + [LimitEntry(c, cap)], t.index, t.routed + 1)
    case Normal(x) => E.Trace(t.outs + [LimitEntry(c, cap)], t.index + 1, t.routed)
  }

  /** The results, the count of values and the number of errors routed to
      `throw()` after the entries `s` were consumed below the limit. */
  function LimitRun(s: seq<Completion<Value>>, cap: ThrowCapability): E.Trace
    decreases |s|
  {
    if s == [] then E.Trace([], 0, 0)
    else LimitFeed(LimitRun(s[..|s| - 1], cap), s[|s| - 1], cap)
  }

  lemma LimitRunStep(script: seq<Completion<Value>>, lo: nat, hi: nat, cap: ThrowCapability)
    requires lo < hi <= |script|
    ensures LimitRun(script[lo..hi], cap) == LimitFeed(LimitRun(script[lo..hi - 1], cap), script[hi - 1], cap)
  {
    E.ConsumedStep(script, lo, hi);
  }

  /** Each entry gives exactly one result, in order; each is counted either
      as a value or as a routed error. */
  lemma {:induction false} LimitRunEntries(s: seq<Completion<Value>>, cap: ThrowCapability)
    ensures var t := LimitRun(s, cap);
      && |t.outs| == |s| && t.index + t.routed == |s|
      && (forall i :: 0 <= i < |s| ==> t.outs[i] == LimitEntry(s[i], cap))
      && (AllNormal(s) ==> t.routed == 0)
    decreases |s|
  {
    if s != [] {
      var init := s[..|s| - 1];
      LimitRunEntries(init, cap);
      assert forall i :: 0 <= i < |init| ==> init[i] == s[i];
      assert AllNormal(s) ==> AllNormal(init);
    }
  }

  /** Without errors, TakeIterator stops pulling after `limit` values, and
      has by then yielded the first `limit` values, untransformed. */
  lemma LimitWindow(w: seq<Completion<Value>>, cap: ThrowCapability, limit: nat)
    requires AllNormal(w)
    ensures var k := Min(limit, |w|);
      LimitRun(w[..k], cap).outs == Yields(Take(Values(w), limit))
  {
    var k := Min(limit, |w|);
    LimitRunEntries(w[..k], cap);
  }

  /** `new TakeIterator(limit, iterator)`.  A limit that is not a number,
      or is negative, is reported to `throw()`; the construction fails
      unless the wrapped `throw()` completes, in which case the iterator
      has no limit at all. */
  method NewTakeIterator(limit: Value, up: Source) returns (r: Completion<TakeIterator>)
    requires up.Valid()
    modifies up`throwCalls
    ensures CheckCount(limit, "Limit").Normal? ==>
      && r.Normal? && r.value.limit == Some(CheckCount(limit, "Limit").value)
      && up.throwCalls == old(up.throwCalls)
    ensures CheckCount(limit, "Limit").Thrown? ==>
      && up.throwCalls == old(up.throwCalls) + ThrowCalls(up.throwCap, 1)
      && (r.Thrown? <==> up.throwCap != Completes)
      && (r.Thrown? ==> r.error == CheckCount(limit, "Limit").error)
      && (r.Normal? ==> r.value.limit.None?)
    ensures r.Normal? ==>
      && fresh(r.value) && fresh(r.value.base) && r.value.Valid()
      && r.value.base.up == up && r.value.Emitted == [] && r.value.count == 0
  {
    var base := new BaseIterator(up);
    var bound: Option<nat>;
    match CheckCount(limit, "Limit") {
      case Normal(n) =>
        bound := Some(n);
      case Thrown(e) =>
        var outcome := base.Throw(e);
        if outcome.Thrown? {
          r := Thrown(outcome.error);
          return;
        }
        bound := None;
    }
    var it := new TakeIterator(base, bound);
    r := Normal(it);
  }

  /** `class TakeIterator`, synchronous path: LimitRun below the limit;
      at the limit the upstream is released and done is reported without a
      pull; the upstream's done result goes through `return()`. */
  class TakeIterator {
    const base: BaseIterator
    const limit: Option<nat>
    var count: nat
    ghost var Emitted: seq<Completion<Step>>
    ghost const start: nat
    ghost const throwCalls0: nat

    ghost predicate Valid()
      reads this, base.up
    {
      && base.up.Valid()
      && start <= base.up.pos
      && var t := LimitRun(base.up.script[start..base.up.pos], base.up.throwCap);
      && Emitted == t.outs
      && count == t.index
      && base.up.throwCalls == throwCalls0 + ThrowCalls(base.up.throwCap, t.routed)
      && (limit.Some? ==> count <= limit.value)
    }

    /** `count >= limit`; never true without a limit. */
    predicate AtLimit()
      reads this
    {
      limit.Some? && count >= limit.value
    }

    constructor (base: BaseIterator, limit: Option<nat>)
      requires base.up.Valid()
      ensures Valid()
      ensures this.base == base && this.limit == limit
      ensures count == 0 && Emitted == []
    {
      this.base, this.limit := base, limit;
      count := 0;
      Emitted := [];
      start := base.up.pos;
      throwCalls0 := base.up.throwCalls;
    }

    method Next() returns (r: Completion<Step>)
      requires Valid()
      modifies this, base.up
      ensures Valid()
      ensures old(AtLimit()) ==>
        && r == Normal(Done(Undefined)) && Emitted == old(Emitted)
        && base.up.pos == old(base.up.pos) && base.up.pulls == old(base.up.pulls)
        && base.up.returnCalls == old(base.up.returnCalls) + (if base.up.hasReturn then 1 else 0)
      ensures !old(AtLimit()) ==>
        && base.up.pulls == old(base.up.pulls) + 1
        && (old(base.up.pos) < |base.up.script| ==>
              base.up.pos == old(base.up.pos) + 1 && Emitted == old(Emitted) + [r]
              && base.up.returnCalls == old(base.up.returnCalls))
        && (old(base.up.pos) == |base.up.script| ==>
              base.up.pos == old(base.up.pos) && Emitted == old(Emitted) && r == Normal(Done(base.up.doneValue))
              && base.up.returnCalls == old(base.up.returnCalls) + (if base.up.hasReturn then 1 else 0))
    {
      if limit.Some? && count >= limit.value {
        ReleaseIfPossible(base.up);
        r := Normal(Done(Undefined));
        return;
      }
      var result := base.Next();
      if result.Normal? && result.value.Done? {
        var done := base.Return(result.value.value);
        r := Normal(done);
        return;
      }
      LimitRunStep(base.up.script, start, base.up.pos, base.up.throwCap);
      if result.Thrown? {
        r := base.Throw(result.error);
      } else {
        count := count + 1;
        r := Normal(Yield(result.value.value));
      }
      Emitted := Emitted + [r];
    }
  }
}
