/** The lazy decorators of src/index.ts, the synchronous-only version of
    ExtendedIterable.  None of them validates its arguments, none calls the
    upstream `return()` or `throw()`: every error propagates to the caller
    of `next()`.  Where a decorator treats each upstream pull as its
    counterpart in src/extended-iterable.ts does, its invariant reuses that
    counterpart's run function; the errors it would report upstream are then
    simply not reported. */
module SyncDecorators {
  import opened JsValues
  import opened Sequences
  import opened Handles
  import opened Resolution
  import E = ExtendedDecorators

  const InvalidIteratorMessage: string := "Invalid iterator"

  /** An argument used as a function without being checked: calling a
      non-function throws the host's TypeError. */
  function Invoked(callback: FnArg<Callback>): (f: Callback)
    ensures callback.Function? ==> f == callback.f
    ensures callback.NotFunction? ==> forall v, i :: f(v, i) == Thrown(NotCallableError)
  {
    match callback
    case Function(g) => g
    case NotFunction(_) => (v: Value, i: nat) => Thrown(NotCallableError)
  }

  function InvokedReducer(callback: FnArg<Reducer>): (f: Reducer)
    ensures callback.Function? ==> f == callback.f
    ensures callback.NotFunction? ==> forall a, v, i :: f(a, v, i) == Thrown(NotCallableError)
  {
    match callback
    case Function(g) => g
    case NotFunction(_) => (a: Value, v: Value, i: nat) => Thrown(NotCallableError)
  }

  /** A number used as a count without being checked: below zero it
      behaves as zero in every comparison the decorators make. */
  function NonNeg(n: int): (m: nat)
    ensures n >= 0 ==> m == n
    ensures n < 0 ==> m == 0
  {
    if n < 0 then 0 else n
  }

  /** `#processResult`: a done result passes unchanged, a value goes
      through the transformer, whose error propagates.  ConcatIterator calls
      it without `this`, which `None` stands for: the value is untouched. */
  function ProcessResult(transformer: Option<Transformer>, result: Step): (r: Completion<Step>)
    ensures result.Done? ==> r == Normal(result)
    ensures result.Yield? ==> r == E.TransformEntry(transformer, Normal(result.value))
    ensures transformer.None? ==> r == Normal(result)
  {
    match result
    case Done(_) => Normal(result)
    case Yield(x) =>
      match Apply(transformer, x)
      case Normal(y) => Normal(Yield(y))
      case Thrown(e) => Thrown(e)
  }

  // ---------------------------------------------------------------- map

  /** map's MapIterator: the results match those of src/extended-iterable.ts
      (E.MapRun) pull by pull; errors are not reported upstream. */
  class MapIterator {
    const up: Source
    const callback: Callback
    const transformer: Option<Transformer>
    var index: nat
    ghost var Emitted: seq<Completion<Step>>
    ghost const start: nat

    ghost predicate Valid()
      reads this, up
    {
      && up.Valid()
      && start <= up.pos
      && var t := E.MapRun(up.script[start..up.pos], transformer, callback);
      && Emitted == t.outs
      && index == t.index
    }

    constructor (up: Source, callback: Callback, transformer: Option<Transformer>)
      requires up.Valid()
      ensures Valid()
      ensures this.up == up && this.callback == callback && this.transformer == transformer
      ensures index == 0 && Emitted == []
    {
      this.up, this.callback, this.transformer := up, callback, transformer;
      index := 0;
      Emitted := [];
      start := up.pos;
    }

    /** One pull: a done result is returned as it is; a value becomes
        `callback(transform(x), index++)`. */
    method Next() returns (r: Completion<Step>)
      requires Valid()
      modifies this, up
      ensures Valid()
      ensures old(up.pos) < |up.script| ==> up.pos == old(up.pos) + 1 && Emitted == old(Emitted) + [r]
      ensures old(up.pos) == |up.script| ==> up.pos == old(up.pos) && Emitted == old(Emitted) && r == Normal(Done(up.doneValue))
      ensures up.pulls == old(up.pulls) + 1
      ensures up.returnCalls == old(up.returnCalls) && up.throwCalls == old(up.throwCalls)
    {
      var result := up.Next();
      if result.Normal? && result.value.Done? {
        r := result;
        return;
      }
      E.MapRunStep(up.script, start, up.pos, transformer, callback);
      if result.Thrown? {
        r := result;
      } else {
        var y := Apply(transformer, result.value.value);
        if y.Thrown? {
          r := Thrown(y.error);
        } else {
          var i := index;
          index := index + 1;
          var z := callback(y.value, i);
          r := if z.Thrown? then Thrown(z.error) else Normal(Yield(z.value));
        }
      }
      Emitted := Emitted + [r];
    }
  }

  // ---------------------------------------------------------------- filter

  /** filter's FilterIterator: E.FilterRun for a handle without `throw()`,
      so that every transformer or callback error is rethrown as it is. */
  class FilterIterator {
    const up: Source
    const callback: Callback
    const transformer: Option<Transformer>
    var index: nat
    ghost var Emitted: seq<Completion<Step>>
    ghost const start: nat

    ghost predicate Valid()
      reads this, up
    {
      && up.Valid()
      && start <= up.pos
      && var t := E.FilterRun(up.script[start..up.pos], NoThrow, transformer, callback);
      && Emitted == t.outs
      && index == t.index
    }

    constructor (up: Source, callback: Callback, transformer: Option<Transformer>)
      requires up.Valid()
      ensures Valid()
      ensures this.up == up && this.callback == callback && this.transformer == transformer
      ensures index == 0 && Emitted == []
    {
      this.up, this.callback, this.transformer := up, callback, transformer;
      index := 0;
      Emitted := [];
      start := up.pos;
    }

    /** Pulls until a transformed value is accepted or an error occurs; at
        exhaustion the upstream's done result is returned. */
    method Next() returns (r: Completion<Step>)
      requires Valid()
      modifies this, up
      ensures Valid()
      ensures Emitted == old(Emitted) + [r]
           || (up.Exhausted() && Emitted == old(Emitted) && r == Normal(Done(up.doneValue)))
      ensures up.pulls == old(up.pulls) + (up.pos - old(up.pos)) + (if Emitted == old(Emitted) then 1 else 0)
      ensures up.returnCalls == old(up.returnCalls) && up.throwCalls == old(up.throwCalls)
    {
      while true
        invariant Valid() && Emitted == old(Emitted)
        invariant old(up.pos) <= up.pos
        invariant up.pulls == old(up.pulls) + (up.pos - old(up.pos))
        invariant up.returnCalls == old(up.returnCalls) && up.throwCalls == old(up.throwCalls)
        decreases |up.script| - up.pos
      {
        var step := PullOnce();
        if step.Some? {
          r := step.value;
          return;
        }
      }
    }

    /** One round of the loop: a pull, and a pulled value processed.
        `None` asks for another round. */
    method PullOnce() returns (step: Option<Completion<Step>>)
      requires Valid()
      modifies this, up
      ensures Valid()
      ensures up.pulls == old(up.pulls) + 1
      ensures up.returnCalls == old(up.returnCalls) && up.throwCalls == old(up.throwCalls)
      ensures step.None? ==> Emitted == old(Emitted) && up.pos == old(up.pos) + 1
      ensures step.Some? ==>
        || (Emitted == old(Emitted) + [step.value] && up.pos == old(up.pos) + 1)
        || (up.Exhausted() && Emitted == old(Emitted) && step.value == Normal(Done(up.doneValue)) && up.pos == old(up.pos))
    {
      var result := up.Next();
      if result.Normal? && result.value.Done? {
        step := Some(result);
        return;
      }
      if result.Thrown? {
        E.FilterRunStep(up.script, start, up.pos, NoThrow, transformer, callback);
        step := Some(result);
        Emitted := Emitted + [result];
        return;
      }
      step := Examine(result.value.value);
    }

    /** Valid, but for the last pulled entry, a value `x`, which has not
        been examined yet. */
    ghost predicate Pulled(x: Value)
      reads this, up
    {
      && up.Valid()
      && start < up.pos
      && up.script[up.pos - 1] == Normal(x)
      && var t := E.FilterRun(up.script[start..up.pos - 1], NoThrow, transformer, callback);
      && Emitted == t.outs
      && index == t.index
    }

    /** The loop body: transform the value and ask the callback, with the
        index bumped; nothing is returned for a rejected value. */
    method Examine(x: Value) returns (rval: Option<Completion<Step>>)
      requires Pulled(x)
      modifies this`index, this`Emitted
      ensures Valid()
      ensures rval.Some? ==> Emitted == old(Emitted) + [rval.value]
      ensures rval.None? ==> Emitted == old(Emitted)
    {
      E.FilterRunStep(up.script, start, up.pos, NoThrow, transformer, callback);
      var y := Apply(transformer, x);
      if y.Thrown? {
        rval := Some(Thrown(y.error));
      } else {
        var i := index;
        index := index + 1;
        var keep := callback(y.value, i);
        if keep.Thrown? {
          rval := Some(Thrown(keep.error));
        } else if Truthy(keep.value) {
          rval := Some(Normal(Yield(y.value)));
        } else {
          rval := None;
        }
      }
      if rval.Some? {
        Emitted := Emitted + [rval.value];
      }
    }
  }

  // ---------------------------------------------------------------- take

  /** take's TakeIterator: the limit is not checked.  Pulls below the limit
      are treated as E.TakeRun says; at the limit next() reports done
      without pulling and without releasing the upstream.  A negative limit
      is reached at once. */
  class TakeIterator {
    const up: Source
    const limit: int
    const transformer: Option<Transformer>
    var count: nat
    ghost var Emitted: seq<Completion<Step>>
    ghost const start: nat

    ghost predicate Valid()
      reads this, up
    {
      && up.Valid()
      && start <= up.pos
      && var t := E.TakeRun(up.script[start..up.pos], transformer);
      && Emitted == t.outs
      && count == t.index
      && count <= NonNeg(limit)
    }

    constructor (up: Source, limit: int, transformer: Option<Transformer>)
      requires up.Valid()
      ensures Valid()
      ensures this.up == up && this.limit == limit && this.transformer == transformer
      ensures count == 0 && Emitted == []
    {
      this.up, this.limit, this.transformer := up, limit, transformer;
      count := 0;
      Emitted := [];
      start := up.pos;
    }

    method Next() returns (r: Completion<Step>)
      requires Valid()
      modifies this, up
      ensures Valid()
      ensures old(count) >= limit ==>
        && r == Normal(Done(Undefined)) && Emitted == old(Emitted)
        && up.pos == old(up.pos) && up.pulls == old(up.pulls)
      ensures old(count) < limit ==>
        && up.pulls == old(up.pulls) + 1
        && (old(up.pos) < |up.script| ==> up.pos == old(up.pos) + 1 && Emitted == old(Emitted) + [r])
        && (old(up.pos) == |up.script| ==> up.pos == old(up.pos) && Emitted == old(Emitted) && r == Normal(Done(up.doneValue)))
      ensures up.returnCalls == old(up.returnCalls) && up.throwCalls == old(up.throwCalls)
    {
      if count >= limit {
        r := Normal(Done(Undefined));
        return;
      }
      var result := up.Next();
      if result.Normal? && result.value.Done? {
        r := result;
        return;
      }
      r := ProcessPulled(result);
    }

    /** Valid, but for the last pulled entry, lifted to `result`, which has
        not been processed yet; the limit is not reached. */
    ghost predicate Pulled(result: Completion<Step>)
      reads this, up
    {
      && up.Valid()
      && start < up.pos
      && result == Lift(up.script[up.pos - 1])
      && var t := E.TakeRun(up.script[start..up.pos - 1], transformer);
      && Emitted == t.outs
      && count == t.index
      && count < limit
    }

    /** An error from the pull propagates; a value is counted and goes
        through `#processResult`. */
    method ProcessPulled(result: Completion<Step>) returns (r: Completion<Step>)
      requires Pulled(result)
      modifies this`count, this`Emitted
      ensures Valid() && Emitted == old(Emitted) + [r]
    {
      E.TakeRunStep(up.script, start, up.pos, transformer);
      if result.Thrown? {
        r := result;
      } else {
        count := count + 1;
        r := ProcessResult(transformer, result.value);
      }
      Emitted := Emitted + [r];
    }
  }

  /** Without errors, take stops pulling after `limit` values and has by
      then yielded the first `limit` transformed values; a limit of zero or
      below yields nothing. */
  lemma TakeWindow(w: seq<Completion<Value>>, limit: int, transformer: Option<Transformer>)
    requires AllNormal(w) && TransformNeverThrows(transformer)
    ensures var k := Min(NonNeg(limit), |w|);
      && AllNormal(w[..k])
      && E.TakeRun(w[..k], transformer).outs == Yields(Take(TransformAll(transformer, Values(w)), NonNeg(limit)))
      && (limit <= 0 ==> E.TakeRun(w[..k], transformer).outs == [])
  {
    E.TakeRunComplete(w, transformer, NonNeg(limit));
  }

  // ---------------------------------------------------------------- drop

  /** In E.DropRun the skipping flag adds nothing to the count: skipping
      ends exactly when `count` values have been dropped. */
  lemma {:induction false} DropRunSkips(s: seq<Completion<Value>>, count: nat, transformer: Option<Transformer>)
    ensures var t := E.DropRun(s, count, transformer);
      t.dropped <= count && (!t.skipping ==> t.dropped == count)
    decreases |s|
  {
    if s != [] {
      DropRunSkips(s[..|s| - 1], count, transformer);
    }
  }

  /** drop's DropIterator: the limit is not checked, and a negative one
      skips nothing.  Pull by pull it is E.DropRun: values are dropped while
      fewer than `limit` have been, errors propagate and are not counted,
      then values pass through `#processResult`. */
  class DropIterator {
    const up: Source
    const limit: int
    const transformer: Option<Transformer>
    var index: nat
    ghost var Emitted: seq<Completion<Step>>
    ghost const start: nat

    /** The results of the entries consumed before position `p`. */
    ghost predicate Fed(p: nat)
      reads this
      requires start <= p <= |up.script|
    {
      var t := E.DropRun(up.script[start..p], NonNeg(limit), transformer);
      Emitted == t.outs && index == t.dropped
    }

    ghost predicate Valid()
      reads this, up
    {
      && up.Valid()
      && start <= up.pos
      && Fed(up.pos)
    }

    constructor (up: Source, limit: int, transformer: Option<Transformer>)
      requires up.Valid()
      ensures Valid()
      ensures this.up == up && this.limit == limit && this.transformer == transformer
      ensures index == 0 && Emitted == []
    {
      this.up, this.limit, this.transformer := up, limit, transformer;
      index := 0;
      Emitted := [];
      start := up.pos;
    }

    /** Pull; while the result is a value and fewer than `limit` values were
        skipped, skip it and pull again; pass what is left to
        `#processResult`. */
    method Next() returns (r: Completion<Step>)
      requires Valid()
      modifies this, up
      ensures Valid()
      ensures Emitted == old(Emitted) + [r]
           || (up.Exhausted() && Emitted == old(Emitted) && r == Normal(Done(up.doneValue)))
      ensures up.pulls == old(up.pulls) + (up.pos - old(up.pos)) + (if Emitted == old(Emitted) then 1 else 0)
      ensures up.returnCalls == old(up.returnCalls) && up.throwCalls == old(up.throwCalls)
    {
      var result := SkipLoop();
      if result.Normal? && result.value.Done? {
        r := result;
        return;
      }
      r := PassOn(result);
    }

    /** The result that was not skipped: an error propagates, a value goes
        through `#processResult`. */
    method PassOn(result: Completion<Step>) returns (r: Completion<Step>)
      requires Holding(result) && !(result.Normal? && result.value.Done?) && !(IsYield(result) && index < limit)
      modifies this`Emitted
      ensures Valid() && Emitted == old(Emitted) + [r]
    {
      E.DropRunStep(up.script, start, up.pos, NonNeg(limit), transformer);
      DropRunSkips(up.script[start..up.pos - 1], NonNeg(limit), transformer);
      if result.Thrown? {
        r := result;
      } else {
        r := ProcessResult(transformer, result.value);
      }
      Emitted := Emitted + [r];
    }

    /** `result` is the last pull: done at the end of the script, or the
        entry before the cursor, all earlier entries being accounted for. */
    ghost predicate Holding(result: Completion<Step>)
      reads this, up
    {
      && up.Valid()
      && start <= up.pos
      && if result.Normal? && result.value.Done? then
           up.pos == |up.script| && result == Normal(Done(up.doneValue)) && Fed(up.pos)
         else
           start < up.pos && result == Lift(up.script[up.pos - 1]) && Fed(up.pos - 1)
    }

    /** The pull and the skipping loop; the result not skipped is returned,
        not yet accounted for in Emitted unless it is done. */
    method SkipLoop() returns (result: Completion<Step>)
      requires Valid()
      modifies this`index, up
      ensures Holding(result) && old(up.pos) <= up.pos
      ensures !(IsYield(result) && index < limit)
      ensures up.pulls == old(up.pulls) + (up.pos - old(up.pos)) + (if result.Normal? && result.value.Done? then 1 else 0)
      ensures up.returnCalls == old(up.returnCalls) && up.throwCalls == old(up.throwCalls)
    {
      result := up.Next();
      while IsYield(result) && index < limit
        invariant Holding(result) && old(up.pos) <= up.pos
        invariant up.pulls == old(up.pulls) + (up.pos - old(up.pos)) + (if result.Normal? && result.value.Done? then 1 else 0)
        invariant up.returnCalls == old(up.returnCalls) && up.throwCalls == old(up.throwCalls)
        decreases |up.script| - up.pos + (if IsYield(result) then 1 else 0)
      {
        result := SkipAndPull(result);
      }
    }

    /** One round of the loop: the value just pulled is dropped, the next
        entry is pulled. */
    method SkipAndPull(previous: Completion<Step>) returns (result: Completion<Step>)
      requires Holding(previous) && IsYield(previous) && index < limit
      modifies this`index, up
      ensures Holding(result)
      ensures result.Normal? && result.value.Done? ==> up.pos == old(up.pos)
      ensures !(result.Normal? && result.value.Done?) ==> up.pos == old(up.pos) + 1
      ensures up.pulls == old(up.pulls) + 1
      ensures up.returnCalls == old(up.returnCalls) && up.throwCalls == old(up.throwCalls)
    {
      E.DropRunStep(up.script, start, up.pos, NonNeg(limit), transformer);
      DropRunSkips(up.script[start..up.pos - 1], NonNeg(limit), transformer);
      index := index + 1;
      result := up.Next();
    }
  }

  /** Without errors, drop yields the transformed values after the first
      `limit`; a limit of zero or below drops nothing. */
  lemma DropWindow(w: seq<Completion<Value>>, limit: int, transformer: Option<Transformer>)
    requires AllNormal(w) && TransformNeverThrows(transformer)
    ensures E.DropRun(w, NonNeg(limit), transformer).outs == Yields(Drop(TransformAll(transformer, Values(w)), NonNeg(limit)))
    ensures limit <= 0 ==> E.DropRun(w, NonNeg(limit), transformer).outs == Yields(TransformAll(transformer, Values(w)))
  {
    E.DropRunMeaning(w, NonNeg(limit), transformer);
  }

  // ---------------------------------------------------------------- slice

  /** slice's SliceIterator: `start ?? 0` and `end` are not checked.  Pull
      by pull it is E.SliceRun; the end is compared with the index only
      once the start has been reached, so a range with `start >= end` still
      consumes `start` values before it reports done. */
  class SliceIterator {
    const up: Source
    const startIndex: nat
    const endIndex: Option<int>
    const transformer: Option<Transformer>
    var index: nat
    ghost var Emitted: seq<Completion<Step>>
    ghost const start: nat

    ghost predicate Valid()
      reads this, up
    {
      && up.Valid()
      && start <= up.pos
      && var t := E.SliceRun(up.script[start..up.pos], startIndex, transformer);
      && Emitted == t.outs
      && index == t.index
    }

    /** Past the start and at or past the end: nothing more is pulled. */
    predicate Finished()
      reads this
    {
      startIndex <= index && endIndex.Some? && index >= endIndex.value
    }

    constructor (up: Source, startIndex: nat, endIndex: Option<int>, transformer: Option<Transformer>)
      requires up.Valid()
      ensures Valid()
      ensures this.up == up && this.startIndex == startIndex && this.endIndex == endIndex && this.transformer == transformer
      ensures index == 0 && Emitted == []
    {
      this.up, this.startIndex, this.endIndex, this.transformer := up, startIndex, endIndex, transformer;
      index := 0;
      Emitted := [];
      start := up.pos;
    }

    method Next() returns (r: Completion<Step>)
      requires Valid()
      modifies this, up
      ensures Valid()
      ensures old(Finished()) ==>
        r == Normal(Done(Undefined)) && Emitted == old(Emitted) && up.pos == old(up.pos) && up.pulls == old(up.pulls)
      ensures Emitted == old(Emitted) + [r]
           || (up.Exhausted() && Emitted == old(Emitted) && r == Normal(Done(up.doneValue)))
           || (Finished() && Emitted == old(Emitted) && r == Normal(Done(Undefined)))
      ensures up.pulls == old(up.pulls) + (up.pos - old(up.pos)) + (if up.Exhausted() && Emitted == old(Emitted) && !Finished() then 1 else 0)
      ensures up.returnCalls == old(up.returnCalls) && up.throwCalls == old(up.throwCalls)
    {
      var early := SkipToStart();
      if early.Some? {
        r := early.value;
        return;
      }
      if endIndex.Some? && index >= endIndex.value {
        r := Normal(Done(Undefined));
        return;
      }
      r := GetNextValue();
    }

    /** The skipping loop at the head of every call: pull and discard values
        until the index reaches the start.  A done or an error ends the call
        early (`Some`); the next call goes on skipping. */
    method SkipToStart() returns (early: Option<Completion<Step>>)
      requires Valid()
      modifies this`index, this`Emitted, up
      ensures Valid() && old(up.pos) <= up.pos
      ensures old(index) >= startIndex ==> early.None? && index == old(index) && up.pos == old(up.pos) && up.pulls == old(up.pulls)
      ensures early.None? ==> startIndex <= index && Emitted == old(Emitted) && up.pulls == old(up.pulls) + (up.pos - old(up.pos))
      ensures early.Some? ==>
        || (Emitted == old(Emitted) + [early.value] && up.pulls == old(up.pulls) + (up.pos - old(up.pos)))
        || (up.Exhausted() && index < startIndex && Emitted == old(Emitted) && early.value == Normal(Done(up.doneValue))
            && up.pulls == old(up.pulls) + (up.pos - old(up.pos)) + 1)
      ensures up.returnCalls == old(up.returnCalls) && up.throwCalls == old(up.throwCalls)
    {
      while index < startIndex
        invariant Valid() && Emitted == old(Emitted)
        invariant old(up.pos) <= up.pos
        invariant old(index) >= startIndex ==> index == old(index) && up.pos == old(up.pos)
        invariant up.pulls == old(up.pulls) + (up.pos - old(up.pos))
        invariant up.returnCalls == old(up.returnCalls) && up.throwCalls == old(up.throwCalls)
        decreases |up.script| - up.pos
      {
        early := SkipStep();
        if early.Some? {
          return;
        }
      }
      early := None;
    }

    /** One round of the skipping loop: a value is discarded (`None`), a
        done or an error ends the call. */
    method SkipStep() returns (early: Option<Completion<Step>>)
      requires Valid() && index < startIndex
      modifies this`index, this`Emitted, up
      ensures Valid()
      ensures early.None? ==> Emitted == old(Emitted) && up.pos == old(up.pos) + 1
      ensures early.Some? ==>
        || (Emitted == old(Emitted) + [early.value] && up.pos == old(up.pos) + 1)
        || (up.Exhausted() && index < startIndex && Emitted == old(Emitted) && early.value == Normal(Done(up.doneValue))
            && up.pos == old(up.pos))
      ensures up.pulls == old(up.pulls) + 1
      ensures up.returnCalls == old(up.returnCalls) && up.throwCalls == old(up.throwCalls)
    {
      var result := up.Next();
      if result.Normal? && result.value.Done? {
        early := Some(result);
        return;
      }
      E.SliceRunStep(up.script, start, up.pos, startIndex, transformer);
      early := None;
      if result.Thrown? {
        early := Some(result);
        Emitted := Emitted + [result];
        return;
      }
      index := index + 1;
    }

    /** Past the start: one pull, the index bumped for a value, which goes
        through `#processResult`. */
    method GetNextValue() returns (r: Completion<Step>)
      requires Valid() && startIndex <= index
      modifies this`index, this`Emitted, up
      ensures Valid()
      ensures old(up.pos) < |up.script| ==> up.pos == old(up.pos) + 1 && Emitted == old(Emitted) + [r]
      ensures old(up.pos) == |up.script| ==> up.pos == old(up.pos) && Emitted == old(Emitted) && r == Normal(Done(up.doneValue))
      ensures up.pulls == old(up.pulls) + 1
      ensures up.returnCalls == old(up.returnCalls) && up.throwCalls == old(up.throwCalls)
    {
      var result := up.Next();
      if result.Normal? && result.value.Done? {
        r := result;
        return;
      }
      E.SliceRunStep(up.script, start, up.pos, startIndex, transformer);
      if result.Thrown? {
        r := result;
      } else {
        index := index + 1;
        r := ProcessResult(transformer, result.value);
      }
      Emitted := Emitted + [r];
    }
  }

  /** Without errors, slice stops pulling once `max(start, end)` values have
      been consumed (or the values run out), and by then it has yielded
      `values.slice(start, end)`; a negative end counts as zero. */
  lemma SliceWindow(w: seq<Completion<Value>>, startIndex: nat, endIndex: Option<int>, transformer: Option<Transformer>)
    requires AllNormal(w) && TransformNeverThrows(transformer)
    ensures var k := if endIndex.Some? then Min(if startIndex <= NonNeg(endIndex.value) then NonNeg(endIndex.value) else startIndex, |w|) else |w|;
      var e := if endIndex.Some? then Some(NonNeg(endIndex.value)) else None;
      && AllNormal(w[..k])
      && E.SliceRun(w[..k], startIndex, transformer).outs == Yields(Slice(TransformAll(transformer, Values(w)), startIndex, e))
  {
    var k := if endIndex.Some? then Min(if startIndex <= NonNeg(endIndex.value) then NonNeg(endIndex.value) else startIndex, |w|) else |w|;
    assert AllNormal(w[..k]);
    E.SliceRunMeaning(w[..k], startIndex, transformer);
    assert TransformAll(transformer, Values(w[..k])) == TransformAll(transformer, Values(w))[..k];
  }

  // ---------------------------------------------------------------- concat

  /** concat's ConcatIterator: `other` is resolved only when the first
      handle reports done.  A failed resolution is thrown from that call;
      with no second handle every later call reports done.  The second
      handle's results go through `#processResult` without `this`, so they
      are not transformed. */
  class ConcatIterator {
    const up: Source
    const other: Input
    const transformer: Option<Transformer>
    var firstDone: bool
    var second: Source?
    ghost var Emitted: seq<Completion<Step>>
    ghost const start: nat

    ghost predicate Valid()
      reads this, up, second
    {
      && up.Valid()
      && start <= up.pos
      && (!firstDone ==> second == null && Emitted == E.TransformEntries(transformer, up.script[start..up.pos]))
      && (firstDone ==> up.Exhausted())
      && (firstDone && second == null ==>
            && Resolve(other, InvalidIteratorMessage).Thrown?
            && Emitted == E.TransformEntries(transformer, up.script[start..]) + [Thrown(TypeErrorOf(InvalidIteratorMessage))])
      && (firstDone && second != null ==>
            && second != up && second.Valid()
            && Resolve(other, InvalidIteratorMessage) == Normal(HandleSpec(second.script, second.doneValue, second.hasReturn, second.throwCap))
            && Emitted == E.TransformEntries(transformer, up.script[start..]) + E.TransformEntries(None, second.script[..second.pos]))
    }

    constructor (up: Source, other: Input, transformer: Option<Transformer>)
      requires up.Valid()
      ensures Valid()
      ensures this.up == up && this.other == other && this.transformer == transformer
      ensures !firstDone && second == null && Emitted == []
    {
      this.up, this.other, this.transformer := up, other, transformer;
      firstDone := false;
      second := null;
      Emitted := [];
      start := up.pos;
    }

    /** The first handle's results, transformed, until it is done; then
        the second handle's, as they are. */
    method Next() returns (r: Completion<Step>)
      requires Valid()
      modifies this, up, second
      ensures Valid()
      ensures old(second) != null ==> second == old(second)
      ensures second != null && old(second) == null ==> fresh(second)
      ensures old(firstDone) ==> up.pulls == old(up.pulls)
      ensures Emitted == old(Emitted) + [r]
           || (firstDone && Emitted == old(Emitted)
               && r == Normal(Done(if second == null then Undefined else second.doneValue))
               && (second != null ==> second.Exhausted()))
      ensures up.returnCalls == old(up.returnCalls) && up.throwCalls == old(up.throwCalls)
    {
      if firstDone {
        r := GetNextFromOther();
        return;
      }
      var result := up.Next();
      if result.Normal? && result.value.Done? {
        firstDone := true;
        assert up.script[start..] == up.script[start..up.pos];
        match Resolve(other, InvalidIteratorMessage)
        case Thrown(e) =>
          r := Thrown(e);
          Emitted := Emitted + [r];
        case Normal(spec) =>
          second := new Source(spec);
          assert second.script[..second.pos] == [];
          assert E.TransformEntries(None, []) == [];
          r := GetNextFromOther();
      } else {
        E.EntriesStep(up.script, start, up.pos, transformer);
        if result.Thrown? {
          r := result;
        } else {
          r := ProcessResult(transformer, result.value);
        }
        Emitted := Emitted + [r];
      }
    }

    /** `#getNextFromOther`: done when there is no second handle. */
    method GetNextFromOther() returns (r: Completion<Step>)
      requires Valid() && firstDone
      modifies this`Emitted, second
      ensures Valid()
      ensures Emitted == old(Emitted) + [r]
           || (Emitted == old(Emitted)
               && r == Normal(Done(if second == null then Undefined else second.doneValue))
               && (second != null ==> second.Exhausted()))
    {
      if second == null {
        r := Normal(Done(Undefined));
        return;
      }
      var result := second.Next();
      if result.Normal? && result.value.Done? {
        r := result;
        return;
      }
      E.EntriesStep(second.script, 0, second.pos, None);
      if result.Thrown? {
        r := result;
      } else {
        r := ProcessResult(None, result.value);
      }
      Emitted := Emitted + [r];
    }
  }

  // ---------------------------------------------------------------- flatMap

  /** What flatMap makes of a callback result: the elements of an array, a
      string or another value with `Symbol.iterator`; nothing for any other
      value, which is skipped.  (The empty
      string is falsy and skipped too, and has no elements anyway.) */
  function Spread(v: Value): (vs: seq<Value>)
    ensures IteratedElements(v).Some? ==> vs == IteratedElements(v).value
    ensures IteratedElements(v).None? ==> vs == []
  {
    match IteratedElements(v)
    case Some(elements) => elements
    case None => []
  }

  /** The reference flatMap over values: each value's callback result,
      spread, in order; each value is passed its own position. */
  function FlatMapped(callback: Callback, ys: seq<Value>): seq<Value>
    decreases |ys|
  {
    if ys == [] then []
    else
      var last := |ys| - 1;
      FlatMapped(callback, ys[..last])
        + (match callback(ys[last], last) case Normal(v) => Spread(v) case Thrown(_) => [])
  }

  /** One upstream pull as FlatMapIterator treats it: errors from the pull,
      the transformer or the callback propagate, the index having been
      bumped before the callback runs; a callback result is spread. */
  function FlatMapFeed(t: E.Progress, c: Completion<Value>, transformer: Option<Transformer>, callback: Callback): E.Progress {
    match c
    case Thrown(e) => E.Progress(t.outs + [Thrown(e)], t.index)
    case Normal(x) =>
      match Apply(transformer, x)
      case Thrown(e) => E.Progress(t.outs + [Thrown(e)], t.index)
      case Normal(y) =>
        match callback(y, t.index)
        case Thrown(e) => E.Progress(t.outs + [Thrown(e)], t.index + 1)
        case Normal(v) => E.Progress(t.outs + Yields(Spread(v)), t.index + 1)
  }

  function FlatMapRun(s: seq<Completion<Value>>, transformer: Option<Transformer>, callback: Callback): E.Progress
    decreases |s|
  {
    if s == [] then E.Progress([], 0)
    else FlatMapFeed(FlatMapRun(s[..|s| - 1], transformer, callback), s[|s| - 1], transformer, callback)
  }

  lemma FlatMapRunStep(script: seq<Completion<Value>>, lo: nat, hi: nat, transformer: Option<Transformer>, callback: Callback)
    requires lo < hi <= |script|
    ensures FlatMapRun(script[lo..hi], transformer, callback)
         == FlatMapFeed(FlatMapRun(script[lo..hi - 1], transformer, callback), script[hi - 1], transformer, callback)
  {
    E.ConsumedStep(script, lo, hi);
  }

  /** A callback whose every result has `Symbol.iterator` (an array, a
      string, a Set, a Map, a generator object, any user-defined iterable)
      makes flatMap the concatenation of the elements those results'
      iterators yield, in order. */
  lemma {:induction false} FlatMappedIterables(callback: Callback, ys: seq<Value>)
    requires forall i :: 0 <= i < |ys| ==> callback(ys[i], i).Normal? && IteratedElements(callback(ys[i], i).value).Some?
    ensures FlatMapped(callback, ys)
         == Flatten(seq(|ys|, i requires 0 <= i < |ys| => IteratedElements(callback(ys[i], i).value).value))
    decreases |ys|
  {
    if ys != [] {
      var last := |ys| - 1;
      var init := ys[..last];
      assert forall i :: 0 <= i < |init| ==> init[i] == ys[i];
      FlatMappedIterables(callback, init);
      var parts := seq(|ys|, i requires 0 <= i < |ys| => IteratedElements(callback(ys[i], i).value).value);
      var parts0 := seq(|init|, i requires 0 <= i < |init| => IteratedElements(callback(init[i], i).value).value);
      assert parts == parts0 + [parts[last]];
      FlattenAppend(parts0, parts[last]);
    }
  }

  /** Without errors, flatMap yields the spread callback results of the
      transformed values, in order; non-iterable results contribute nothing. */
  lemma {:induction false} FlatMapRunMeaning(s: seq<Completion<Value>>, transformer: Option<Transformer>, callback: Callback)
    requires AllNormal(s) && TransformNeverThrows(transformer) && CallbackNeverThrows(callback)
    ensures var t := FlatMapRun(s, transformer, callback);
      t.outs == Yields(FlatMapped(callback, TransformAll(transformer, Values(s)))) && t.index == |s|
    decreases |s|
  {
    if s != [] {
      var init := s[..|s| - 1];
      TransformAllSnoc(transformer, s);
      FlatMapRunMeaning(init, transformer, callback);
      var t0 := FlatMapRun(init, transformer, callback);
      var ys := TransformAll(transformer, Values(init));
      var y := Transformed(transformer, s[|s| - 1].value);
      assert Apply(transformer, s[|s| - 1].value) == Normal(y);
      assert callback(y, |ys|).Normal?;
      assert (ys + [y])[..|ys|] == ys;
      YieldsAppend(FlatMapped(callback, ys), Spread(callback(y, |ys|).value));
    } else {
      assert Yields([]) == [];
    }
  }

  /** flatMap's FlatMapIterator.  The current sub-iterator is represented by
      the elements it has left; once the upstream has reported done, every
      call reports done without pulling. */
  class FlatMapIterator {
    const up: Source
    const callback: Callback
    const transformer: Option<Transformer>
    var index: nat
    var sub: Option<seq<Value>>
    var mainDone: bool
    ghost var Emitted: seq<Completion<Step>>
    ghost const start: nat

    function Pending(): seq<Value>
      reads this
    {
      if sub.Some? then sub.value else []
    }

    /** What was emitted, followed by what the sub-iterator still holds, is
        what flatMap makes of the entries consumed. */
    ghost predicate Valid()
      reads this, up
    {
      && up.Valid()
      && start <= up.pos
      && var t := FlatMapRun(up.script[start..up.pos], transformer, callback);
      && Emitted + Yields(Pending()) == t.outs
      && index == t.index
      && (mainDone ==> up.Exhausted() && sub.None?)
    }

    constructor (up: Source, callback: Callback, transformer: Option<Transformer>)
      requires up.Valid()
      ensures Valid()
      ensures this.up == up && this.callback == callback && this.transformer == transformer
      ensures index == 0 && sub.None? && !mainDone && Emitted == []
    {
      this.up, this.callback, this.transformer := up, callback, transformer;
      index := 0;
      sub := None;
      mainDone := false;
      Emitted := [];
      start := up.pos;
      new;
      assert Yields([]) == [];
    }

    method Next() returns (r: Completion<Step>)
      requires Valid()
      modifies this, up
      ensures Valid()
      ensures old(mainDone) ==> r == Normal(Done(Undefined)) && Emitted == old(Emitted) && up.pulls == old(up.pulls)
      ensures Emitted == old(Emitted) + [r]
           || (mainDone && Emitted == old(Emitted) && r == Normal(Done(Undefined)))
      ensures up.pulls == old(up.pulls) + (up.pos - old(up.pos)) + (if Emitted == old(Emitted) && !old(mainDone) then 1 else 0)
      ensures up.returnCalls == old(up.returnCalls) && up.throwCalls == old(up.throwCalls)
    {
      while true
        invariant Valid() && Emitted == old(Emitted) && mainDone == old(mainDone)
        invariant old(up.pos) <= up.pos
        invariant up.pulls == old(up.pulls) + (up.pos - old(up.pos))
        invariant up.returnCalls == old(up.returnCalls) && up.throwCalls == old(up.throwCalls)
        decreases |up.script| - up.pos
      {
        if sub.Some? {
          if sub.value != [] {
            r := NextFromSub();
            return;
          }
          sub := None;
        }
        if mainDone {
          r := Normal(Done(Undefined));
          return;
        }
        var again: bool;
        r, again := GetNextFromMain();
        if !again {
          return;
        }
      }
    }

    /** The sub-iterator's next element. */
    method NextFromSub() returns (r: Completion<Step>)
      requires Valid() && sub.Some? && sub.value != []
      modifies this`sub, this`Emitted
      ensures Valid()
      ensures r == Normal(Yield(old(sub.value[0]))) && Emitted == old(Emitted) + [r]
      ensures sub == Some(old(sub.value[1..]))
    {
      var v := sub.value[0];
      var rest := sub.value[1..];
      E.YieldsFirst(Emitted, sub.value);
      sub := Some(rest);
      r := Normal(Yield(v));
      Emitted := Emitted + [r];
    }

    /** One pull of the upstream.  `again` asks the caller to go round the
        loop: the callback result became the sub-iterator, or was skipped. */
    method GetNextFromMain() returns (r: Completion<Step>, again: bool)
      requires Valid() && sub.None? && !mainDone
      modifies this, up
      ensures Valid()
      ensures again ==> Emitted == old(Emitted) && up.pos == old(up.pos) + 1 && !mainDone
      ensures !again ==>
        || (Emitted == old(Emitted) + [r] && up.pos == old(up.pos) + 1 && !mainDone)
        || (mainDone && Emitted == old(Emitted) && r == Normal(Done(Undefined)) && up.pos == old(up.pos))
      ensures up.pulls == old(up.pulls) + 1
      ensures up.returnCalls == old(up.returnCalls) && up.throwCalls == old(up.throwCalls)
    {
      assert Emitted + Yields([]) == Emitted;
      again := false;
      var result := up.Next();
      if result.Normal? && result.value.Done? {
        mainDone := true;
        r := Normal(Done(Undefined));
        return;
      }
      if result.Thrown? {
        r := PassMainError(result.error);
        return;
      }
      r, again := ProcessMainResult(result.value.value);
    }

    /** An error from the upstream's own `next()` propagates. */
    method PassMainError(e: Value) returns (r: Completion<Step>)
      requires Pulled(Thrown(e))
      modifies this`Emitted
      ensures Valid() && !mainDone
      ensures r == Thrown(e) && Emitted == old(Emitted) + [r]
    {
      FlatMapRunStep(up.script, start, up.pos, transformer, callback);
      r := Thrown(e);
      Emitted := Emitted + [r];
    }

    /** Valid, but for the last pulled entry `c`, which has not been
        processed yet; there is no sub-iterator. */
    ghost predicate Pulled(c: Completion<Value>)
      reads this, up
    {
      && up.Valid()
      && start < up.pos
      && up.script[up.pos - 1] == c
      && sub.None? && !mainDone
      && var t := FlatMapRun(up.script[start..up.pos - 1], transformer, callback);
      && Emitted == t.outs
      && index == t.index
    }

    /** `callback(transform(x), index++)`: an array or string result becomes
        the sub-iterator, anything else is skipped. */
    method ProcessMainResult(x: Value) returns (r: Completion<Step>, again: bool)
      requires Pulled(Normal(x))
      modifies this`index, this`sub, this`Emitted
      ensures Valid() && !mainDone
      ensures again ==> Emitted == old(Emitted)
      ensures !again ==> Emitted == old(Emitted) + [r]
    {
      FlatMapRunStep(up.script, start, up.pos, transformer, callback);
      again := false;
      var y := Apply(transformer, x);
      if y.Thrown? {
        r := Thrown(y.error);
        Emitted := Emitted + [r];
        return;
      }
      var i := index;
      index := index + 1;
      var answer := callback(y.value, i);
      if answer.Thrown? {
        r := Thrown(answer.error);
        Emitted := Emitted + [r];
        return;
      }
      again := true;
      r := Normal(Done(Undefined));
      var elements := IteratedElements(answer.value);
      if elements.Some? {
        sub := Some(elements.value);
      } else {
        assert Yields(Spread(answer.value)) == [];
        assert Emitted + [] == Emitted;
      }
    }
  }

  // ---------------------------------------------------------------- mapError

  /** `error instanceof Error ? error : new Error(String(error))`. */
  function AsError(v: Value): (e: Value)
    ensures e.Err?
    ensures v.Err? ==> e == v
    ensures !v.Err? ==> e == Err(Error, ToString(v))
  {
    if v.Err? then v else Err(Error, ToString(v))
  }

  /** The catch block of ErrorMappingIterator.next(): the unchecked catch
      callback applied to the error wrapped as an Error. */
  function Rescuer(catchCallback: FnArg<Transformer>): (f: Transformer)
    ensures catchCallback.Function? ==> forall err :: f(err) == catchCallback.f(AsError(err))
    ensures catchCallback.NotFunction? ==> forall err :: f(err) == Thrown(NotCallableError)
  {
    match catchCallback
    case Function(g) => (err: Value) => g(AsError(err))
    case NotFunction(_) => (err: Value) => Thrown(NotCallableError)
  }

  /** What ErrorMappingIterator.next() returns for a catch callback's
      completion: its value as `{value}`, or its error. */
  function Answered(c: Completion<Value>): Completion<Step> {
    match c
    case Normal(v) => Normal(Yield(v))
    case Thrown(e) => Thrown(e)
  }

  /** A failed pull or transform is answered with `{value: catchCallback(err)}`
      at the same position, `err` being the caught error wrapped as an
      Error; an error from the catch callback (a missing one in particular)
      propagates.  A value the transformer accepts passes through. */
  lemma {:induction false} MapErrorMeaning(s: seq<Completion<Value>>, transformer: Option<Transformer>, catchCallback: FnArg<Transformer>)
    ensures var outs := E.ErrorMapRun(s, transformer, Some(Rescuer(catchCallback)));
      |outs| == |s|
    ensures var outs := E.ErrorMapRun(s, transformer, Some(Rescuer(catchCallback)));
      catchCallback.Function? ==>
        forall i :: 0 <= i < |s| && s[i].Thrown? ==> outs[i] == Answered(catchCallback.f(AsError(s[i].error)))
    ensures var outs := E.ErrorMapRun(s, transformer, Some(Rescuer(catchCallback)));
      catchCallback.Function? ==>
        forall i :: 0 <= i < |s| && s[i].Normal? && Apply(transformer, s[i].value).Thrown? ==>
          outs[i] == Answered(catchCallback.f(AsError(Apply(transformer, s[i].value).error)))
    ensures var outs := E.ErrorMapRun(s, transformer, Some(Rescuer(catchCallback)));
      catchCallback.NotFunction? ==>
        forall i :: 0 <= i < |s| && (s[i].Thrown? || Apply(transformer, s[i].value).Thrown?) ==>
          outs[i] == Thrown(NotCallableError)
    ensures var outs := E.ErrorMapRun(s, transformer, Some(Rescuer(catchCallback)));
      forall i :: 0 <= i < |s| && s[i].Normal? && Apply(transformer, s[i].value).Normal? ==>
        outs[i] == Normal(Yield(Apply(transformer, s[i].value).value))
    ensures AllNormal(s) && TransformNeverThrows(transformer) ==>
      E.ErrorMapRun(s, transformer, Some(Rescuer(catchCallback))) == Yields(TransformAll(transformer, Values(s)))
  {
    var rescue := Rescuer(catchCallback);
    E.ErrorMapRunMeaning(s, transformer, Some(rescue));
    var outs := E.ErrorMapRun(s, transformer, Some(rescue));
    forall i | 0 <= i < |s| && s[i].Thrown?
      ensures outs[i] == Answered(rescue(s[i].error))
    {
      assert outs[i] == E.Recover(s[i].error, Some(rescue));
    }
    forall i | 0 <= i < |s| && s[i].Normal? && Apply(transformer, s[i].value).Thrown?
      ensures outs[i] == Answered(rescue(Apply(transformer, s[i].value).error))
    {
      assert outs[i] == E.Recover(Apply(transformer, s[i].value).error, Some(rescue));
    }
  }

  /** With a catch callback that never throws, mapError never throws. */
  lemma MapErrorNeverThrows(s: seq<Completion<Value>>, transformer: Option<Transformer>, catchCallback: FnArg<Transformer>)
    requires catchCallback.Function? && NeverThrows(catchCallback.f)
    ensures var outs := E.ErrorMapRun(s, transformer, Some(Rescuer(catchCallback)));
      forall i :: 0 <= i < |s| ==> outs[i].Normal? && outs[i].value.Yield?
  {
    assert NeverThrows(Rescuer(catchCallback)) by {
      forall v ensures Rescuer(catchCallback)(v).Normal? {
        assert Rescuer(catchCallback)(v) == catchCallback.f(AsError(v));
      }
    }
    E.ErrorMapRunNeverThrows(s, transformer, Some(Rescuer(catchCallback)));
  }

  /** mapError's ErrorMappingIterator: pull by pull it is E.ErrorMapRun with
      the Rescuer as catch callback. */
  class ErrorMappingIterator {
    const up: Source
    const catchCallback: FnArg<Transformer>
    const transformer: Option<Transformer>
    ghost var Emitted: seq<Completion<Step>>
    ghost const start: nat

    ghost predicate Valid()
      reads this, up
    {
      && up.Valid()
      && start <= up.pos
      && Emitted == E.ErrorMapRun(up.script[start..up.pos], transformer, Some(Rescuer(catchCallback)))
    }

    constructor (up: Source, catchCallback: FnArg<Transformer>, transformer: Option<Transformer>)
      requires up.Valid()
      ensures Valid()
      ensures this.up == up && this.catchCallback == catchCallback && this.transformer == transformer
      ensures Emitted == []
    {
      this.up, this.catchCallback, this.transformer := up, catchCallback, transformer;
      Emitted := [];
      start := up.pos;
    }

    /** One pull inside `try`; an error from it or from the transformer is
        caught and handed to the catch callback. */
    method Next() returns (r: Completion<Step>)
      requires Valid()
      modifies this, up
      ensures Valid()
      ensures old(up.pos) < |up.script| ==> up.pos == old(up.pos) + 1 && Emitted == old(Emitted) + [r]
      ensures old(up.pos) == |up.script| ==> up.pos == old(up.pos) && Emitted == old(Emitted) && r == Normal(Done(up.doneValue))
      ensures up.pulls == old(up.pulls) + 1
      ensures up.returnCalls == old(up.returnCalls) && up.throwCalls == old(up.throwCalls)
    {
      var result := up.Next();
      if result.Normal? && result.value.Done? {
        r := result;
        return;
      }
      E.ErrorMapRunStep(up.script, start, up.pos, transformer, Some(Rescuer(catchCallback)));
      var error: Value;
      if result.Thrown? {
        error := result.error;
      } else {
        var y := Apply(transformer, result.value.value);
        if y.Normal? {
          r := Normal(Yield(y.value));
          Emitted := Emitted + [r];
          return;
        }
        error := y.error;
      }
      var err: Completion<Value>;
      match catchCallback {
        case Function(f) =>
          err := f(AsError(error));
        case NotFunction(_) =>
          err := Thrown(NotCallableError);
      }
      r := if err.Thrown? then Thrown(err.error) else Normal(Yield(err.value));
      Emitted := Emitted + [r];
    }
  }
}
