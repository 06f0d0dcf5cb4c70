/** The ExtendedIterable class of src/index.ts, the synchronous-only
    version: construction, the lazy combinators (which check none of their
    arguments) and the terminal operations (which never release or fail
    the handle).  The terminals are specified by the same functions as
    those of src/extended-iterable.ts, with the release and failure
    reports dropped. */
module SyncIterables {
  import opened JsValues
  import opened Sequences
  import opened Handles
  import opened Arguments
  import opened Resolution
  import opened SyncDecorators
  import opened ExtendedTerminals

  /** What `asArray` and `at` hand back: the result itself (`rval`, when it
      is truthy), or the promise built around the computation, which is
      settled by then, with the result or with the error the computation
      threw. */
  datatype Answer<T> = Immediate(value: T) | Deferred(settled: Completion<T>)

  /** `rval || promise` in `at`: a falsy value, `undefined` for an index
      past the end, and an error all come back as the promise. */
  function AtAnswer(c: Completion<Value>): (a: Answer<Value>)
    ensures a.Immediate? <==> c.Normal? && Truthy(c.value)
    ensures a.Immediate? ==> a.value == c.value
    ensures a.Deferred? ==> a.settled == c
  {
    if c.Normal? && Truthy(c.value) then Immediate(c.value) else Deferred(c)
  }

  /** `rval || promise` in `asArray`: an array is always truthy, so only an
      error comes back as the promise. */
  function ArrayAnswer(c: Completion<seq<Value>>): (a: Answer<seq<Value>>)
    ensures a.Immediate? <==> c.Normal?
    ensures a.Immediate? ==> a.value == c.value
    ensures a.Deferred? ==> a.settled == c
  {
    if c.Normal? then Immediate(c.value) else Deferred(c)
  }

  /** What the terminals report to the handle: nothing beyond the pulls. */
  function Unreported<T>(o: Outcome<T>): (u: Outcome<T>)
    ensures u.result == o.result && u.pulls == o.pulls && !u.released && !u.failed
  {
    o.(released := false, failed := false)
  }

  /** `new ExtendedIterable(iterator, transformer)`: resolve the handle
      first, then check the transformer. */
  method Create(input: Input, transformer: FnArg<Transformer>) returns (r: Completion<ExtendedIterable>)
    ensures Resolve(input, InvalidIteratorMessage).Thrown? ==> r == Thrown(TypeErrorOf(InvalidIteratorMessage))
    ensures Resolve(input, InvalidIteratorMessage).Normal? && CheckTransformer(transformer).Thrown?
            ==> r == Thrown(TypeErrorOf(TransformerMessage))
    ensures r.Normal? <==> Resolve(input, InvalidIteratorMessage).Normal? && CheckTransformer(transformer).Normal?
    ensures r.Normal? ==>
      && fresh(r.value) && fresh(r.value.handle) && r.value.Valid()
      && r.value.Handle() == Resolve(input, InvalidIteratorMessage).value
      && r.value.transformer == CheckTransformer(transformer).value
      && r.value.Untouched()
  {
    match Resolve(input, InvalidIteratorMessage)
    case Thrown(e) =>
      r := Thrown(e);
    case Normal(spec) =>
      match CheckTransformer(transformer)
      case Thrown(e) =>
        r := Thrown(e);
      case Normal(t) =>
        var it := new ExtendedIterable(spec, t);
        r := Normal(it);
  }

  class ExtendedIterable {
    const handle: Source
    const transformer: Option<Transformer>

    ghost predicate Valid()
      reads this, handle
    {
      handle.Valid()
    }

    /** The behaviour of the handle this iterable reads. */
    function Handle(): HandleSpec
      reads this
    {
      HandleSpec(handle.script, handle.doneValue, handle.hasReturn, handle.throwCap)
    }

    /** Nothing has been asked of the handle yet. */
    predicate Untouched()
      reads this, handle
    {
      handle.pos == 0 && handle.pulls == 0 && handle.returnCalls == 0 && handle.throwCalls == 0
    }

    constructor (spec: HandleSpec, transformer: Option<Transformer>)
      ensures Valid() && fresh(handle)
      ensures Handle() == spec && this.transformer == transformer && Untouched()
    {
      handle := new Source(spec);
      this.transformer := transformer;
    }

    // ------------------------------------------------------------ combinators

    method Map(callback: FnArg<Callback>) returns (m: MapIterator)
      requires Valid()
      ensures fresh(m) && m.Valid() && m.Emitted == [] && m.index == 0
      ensures m.up == handle && m.callback == Invoked(callback) && m.transformer == transformer
    {
      m := new MapIterator(handle, Invoked(callback), transformer);
    }

    method Filter(callback: FnArg<Callback>) returns (m: FilterIterator)
      requires Valid()
      ensures fresh(m) && m.Valid() && m.Emitted == [] && m.index == 0
      ensures m.up == handle && m.callback == Invoked(callback) && m.transformer == transformer
    {
      m := new FilterIterator(handle, Invoked(callback), transformer);
    }

    method FlatMap(callback: FnArg<Callback>) returns (m: FlatMapIterator)
      requires Valid()
      ensures fresh(m) && m.Valid() && m.Emitted == [] && m.index == 0 && m.sub.None? && !m.mainDone
      ensures m.up == handle && m.callback == Invoked(callback) && m.transformer == transformer
    {
      m := new FlatMapIterator(handle, Invoked(callback), transformer);
    }

    method Take(limit: int) returns (m: TakeIterator)
      requires Valid()
      ensures fresh(m) && m.Valid() && m.Emitted == [] && m.count == 0
      ensures m.up == handle && m.limit == limit && m.transformer == transformer
    {
      m := new TakeIterator(handle, limit, transformer);
    }

    method Drop(limit: int) returns (m: DropIterator)
      requires Valid()
      ensures fresh(m) && m.Valid() && m.Emitted == [] && m.index == 0
      ensures m.up == handle && m.limit == limit && m.transformer == transformer
    {
      m := new DropIterator(handle, limit, transformer);
    }

    /** `slice(start?, end?)`: the start defaults to 0. */
    method Slice(start: Option<int>, end: Option<int>) returns (m: SliceIterator)
      requires Valid()
      ensures fresh(m) && m.Valid() && m.Emitted == [] && m.index == 0
      ensures m.up == handle && m.transformer == transformer
      ensures m.startIndex == NonNeg(if start.Some? then start.value else 0) && m.endIndex == end
    {
      m := new SliceIterator(handle, NonNeg(if start.Some? then start.value else 0), end, transformer);
    }

    /** `concat(other)`: `other` is resolved only when this handle is done. */
    method Concat(other: Input) returns (m: ConcatIterator)
      requires Valid()
      ensures fresh(m) && m.Valid() && m.Emitted == [] && !m.firstDone && m.second == null
      ensures m.up == handle && m.other == other && m.transformer == transformer
    {
      m := new ConcatIterator(handle, other, transformer);
    }

    method MapError(catchCallback: FnArg<Transformer>) returns (m: ErrorMappingIterator)
      requires Valid()
      ensures fresh(m) && m.Valid() && m.Emitted == []
      ensures m.up == handle && m.catchCallback == catchCallback && m.transformer == transformer
    {
      m := new ErrorMappingIterator(handle, catchCallback, transformer);
    }

    // ------------------------------------------------------------ terminals

    /** The `asArray` getter: the transformed values, or the error that
        stopped the collection, handed back in a settled promise. */
    method AsArray() returns (r: Answer<seq<Value>>)
      requires Valid()
      modifies handle
      ensures Valid()
      ensures var o := AsArrayFrom(old(handle.Rest()), transformer, [], 0);
        r == ArrayAnswer(o.result) && Drove(handle, old(handle.Rest()), Unreported(o))
    {
      ghost var rest0 := handle.Rest();
      var collected: seq<Value> := [];
      ghost var index: nat := 0;
      var result := handle.Next();
      while IsYield(result)
        invariant handle.Valid()
        invariant AsArrayFrom(rest0, transformer, [], 0) == AsArrayAfter(DoneIgnored(result), handle.Rest(), transformer, collected, index)
        invariant handle.pulls == old(handle.pulls) + index + 1
        invariant handle.pos == old(handle.pos) + Min(index + 1, |rest0|)
        invariant handle.returnCalls == old(handle.returnCalls) && handle.throwCalls == old(handle.throwCalls)
        decreases Pending(result, handle.Rest())
      {
        var y := Apply(transformer, result.value.value);
        if y.Thrown? {
          r := Deferred(Thrown(y.error));
          return;
        }
        collected := collected + [y.value];
        result := handle.Next();
        index := index + 1;
      }
      if result.Thrown? {
        r := Deferred(Thrown(result.error));
        return;
      }
      r := Immediate(collected);
    }

    /** `at(index)`: the counter is decremented at every value, and the
        value met when it was 0 is transformed and resolved. */
    method At(index: int) returns (r: Answer<Value>)
      requires Valid()
      modifies handle
      ensures Valid()
      ensures var o := AtFrom(old(handle.Rest()), transformer, index, 0);
        r == AtAnswer(o.result) && Drove(handle, old(handle.Rest()), Unreported(o))
    {
      ghost var rest0 := handle.Rest();
      var remaining := index;
      ghost var current: nat := 0;
      var result := handle.Next();
      while IsYield(result)
        invariant handle.Valid() && remaining == index - current
        invariant AtFrom(rest0, transformer, index, 0) == AtAfter(DoneIgnored(result), handle.Rest(), transformer, index, current)
        invariant handle.pulls == old(handle.pulls) + current + 1
        invariant handle.pos == old(handle.pos) + Min(current + 1, |rest0|)
        invariant handle.returnCalls == old(handle.returnCalls) && handle.throwCalls == old(handle.throwCalls)
        decreases Pending(result, handle.Rest())
      {
        var hit := remaining == 0;
        remaining := remaining - 1;
        if hit {
          var y := Apply(transformer, result.value.value);
          r := AtAnswer(y);
          return;
        }
        current := current + 1;
        result := handle.Next();
      }
      if result.Thrown? {
        r := Deferred(Thrown(result.error));
        return;
      }
      r := Deferred(Normal(Undefined));
    }

    method Every(callback: FnArg<Callback>) returns (r: Completion<Value>)
      requires Valid()
      modifies handle
      ensures Valid()
      ensures var o := EveryFrom(old(handle.Rest()), transformer, Invoked(callback), 0);
        r == o.result && Drove(handle, old(handle.Rest()), Unreported(o))
    {
      ghost var rest0 := handle.Rest();
      var f := Invoked(callback);
      var result := handle.Next();
      var index: nat := 0;
      while IsYield(result)
        invariant handle.Valid()
        invariant EveryFrom(rest0, transformer, f, 0) == EveryAfter(DoneIgnored(result), handle.Rest(), transformer, f, index)
        invariant handle.pulls == old(handle.pulls) + index + 1
        invariant handle.pos == old(handle.pos) + Min(index + 1, |rest0|)
        invariant handle.returnCalls == old(handle.returnCalls) && handle.throwCalls == old(handle.throwCalls)
        decreases Pending(result, handle.Rest())
      {
        var answer := Judged(transformer, f, result.value.value, index);
        if answer.Thrown? {
          r := Thrown(answer.error);
          return;
        }
        if !Truthy(answer.value) {
          r := Normal(Bool(false));
          return;
        }
        assert EveryAfter(DoneIgnored(result), handle.Rest(), transformer, f, index)
            == EveryFrom(handle.Rest(), transformer, f, index + 1);
        index := index + 1;
        result := handle.Next();
      }
      if result.Thrown? {
        r := Thrown(result.error);
        return;
      }
      r := Normal(Bool(true));
    }

    method Some(callback: FnArg<Callback>) returns (r: Completion<Value>)
      requires Valid()
      modifies handle
      ensures Valid()
      ensures var o := SomeFrom(old(handle.Rest()), transformer, Invoked(callback), 0);
        r == o.result && Drove(handle, old(handle.Rest()), Unreported(o))
    {
      ghost var rest0 := handle.Rest();
      var f := Invoked(callback);
      var result := handle.Next();
      var index: nat := 0;
      while IsYield(result)
        invariant handle.Valid()
        invariant SomeFrom(rest0, transformer, f, 0) == SomeAfter(DoneIgnored(result), handle.Rest(), transformer, f, index)
        invariant handle.pulls == old(handle.pulls) + index + 1
        invariant handle.pos == old(handle.pos) + Min(index + 1, |rest0|)
        invariant handle.returnCalls == old(handle.returnCalls) && handle.throwCalls == old(handle.throwCalls)
        decreases Pending(result, handle.Rest())
      {
        var y := Apply(transformer, result.value.value);
        if y.Thrown? {
          r := Thrown(y.error);
          return;
        }
        var answer := f(y.value, index);
        if answer.Thrown? {
          r := Thrown(answer.error);
          return;
        }
        if Truthy(answer.value) {
          r := Normal(Bool(true));
          return;
        }
        index := index + 1;
        result := handle.Next();
      }
      if result.Thrown? {
        r := Thrown(result.error);
        return;
      }
      r := Normal(Bool(false));
    }

    method Find(callback: FnArg<Callback>) returns (r: Completion<Value>)
      requires Valid()
      modifies handle
      ensures Valid()
      ensures var o := FindFrom(old(handle.Rest()), transformer, Invoked(callback), 0);
        r == o.result && Drove(handle, old(handle.Rest()), Unreported(o))
    {
      ghost var rest0 := handle.Rest();
      var f := Invoked(callback);
      var result := handle.Next();
      var index: nat := 0;
      while IsYield(result)
        invariant handle.Valid()
        invariant FindFrom(rest0, transformer, f, 0) == FindAfter(DoneIgnored(result), handle.Rest(), transformer, f, index)
        invariant handle.pulls == old(handle.pulls) + index + 1
        invariant handle.pos == old(handle.pos) + Min(index + 1, |rest0|)
        invariant handle.returnCalls == old(handle.returnCalls) && handle.throwCalls == old(handle.throwCalls)
        decreases Pending(result, handle.Rest())
      {
        var y := Apply(transformer, result.value.value);
        if y.Thrown? {
          r := Thrown(y.error);
          return;
        }
        var answer := f(y.value, index);
        if answer.Thrown? {
          r := Thrown(answer.error);
          return;
        }
        if Truthy(answer.value) {
          r := y;
          return;
        }
        index := index + 1;
        result := handle.Next();
      }
      if result.Thrown? {
        r := Thrown(result.error);
        return;
      }
      r := Normal(Undefined);
    }

    /** `forEach(callback)`; `seen` lists the values the callback was given. */
    method ForEach(callback: FnArg<Callback>) returns (r: Completion<Value>, ghost seen: seq<Value>)
      requires Valid()
      modifies handle
      ensures Valid()
      ensures var o := ForEachFrom(old(handle.Rest()), transformer, Invoked(callback), [], 0);
        && (o.result.Normal? ==> r == Normal(Undefined) && seen == o.result.value)
        && (o.result.Thrown? ==> r == Thrown(o.result.error))
        && Drove(handle, old(handle.Rest()), Unreported(o))
    {
      ghost var rest0 := handle.Rest();
      seen := [];
      var f := Invoked(callback);
      var result := handle.Next();
      var index: nat := 0;
      while IsYield(result)
        invariant handle.Valid()
        invariant ForEachFrom(rest0, transformer, f, [], 0) == ForEachAfter(DoneIgnored(result), handle.Rest(), transformer, f, seen, index)
        invariant handle.pulls == old(handle.pulls) + index + 1
        invariant handle.pos == old(handle.pos) + Min(index + 1, |rest0|)
        invariant handle.returnCalls == old(handle.returnCalls) && handle.throwCalls == old(handle.throwCalls)
        decreases Pending(result, handle.Rest())
      {
        var y := Apply(transformer, result.value.value);
        if y.Thrown? {
          r := Thrown(y.error);
          return;
        }
        var answer := f(y.value, index);
        if answer.Thrown? {
          r := Thrown(answer.error);
          return;
        }
        seen := seen + [y.value];
        index := index + 1;
        result := handle.Next();
      }
      if result.Thrown? {
        r := Thrown(result.error);
        return;
      }
      r := Normal(Undefined);
    }

    /** `reduce(callback[, initialValue])`; `initial` is None when the call
        passes a single argument.  The callback is not checked: a
        non-function fails at its first call. */
    method Reduce(callback: FnArg<Reducer>, initial: Option<Value>) returns (r: Completion<Value>)
      requires Valid()
      modifies handle
      ensures Valid()
      ensures var o := ReduceCall(old(handle.Rest()), transformer, FnArg.Function(InvokedReducer(callback)), initial);
        r == o.result && Drove(handle, old(handle.Rest()), o)
    {
      var f := InvokedReducer(callback);
      if initial.Some? {
        r := ReduceRemaining(f, initial.value, 0);
        return;
      }
      var first := handle.Next();
      if first.Thrown? {
        r := Thrown(first.error);
        return;
      }
      if first.value.Done? {
        r := Thrown(TypeErrorOf(EmptyReduceMessage));
        return;
      }
      var y := Apply(transformer, first.value.value);
      if y.Thrown? {
        r := Thrown(y.error);
        return;
      }
      r := ReduceRemaining(f, y.value, 1);
    }

    /** The loop of `reduce`, from accumulator `acc0` and callback index
        `index0` on. */
    method ReduceRemaining(f: Reducer, acc0: Value, index0: nat) returns (r: Completion<Value>)
      requires Valid()
      modifies handle
      ensures Valid()
      ensures var o := ReduceFrom(old(handle.Rest()), transformer, f, acc0, index0);
        && r == o.result
        && handle.pulls == old(handle.pulls) + o.pulls - index0
        && handle.pos == old(handle.pos) + Min(o.pulls - index0, |old(handle.Rest())|)
        && handle.returnCalls == old(handle.returnCalls) && handle.throwCalls == old(handle.throwCalls)
    {
      ghost var rest0 := handle.Rest();
      var accumulator, index := acc0, index0;
      var result := handle.Next();
      ghost var pulled: nat := 1;
      while IsYield(result)
        invariant handle.Valid() && index == index0 + pulled - 1
        invariant ReduceFrom(rest0, transformer, f, acc0, index0) == ReduceAfter(DoneIgnored(result), handle.Rest(), transformer, f, accumulator, index)
        invariant handle.pulls == old(handle.pulls) + pulled
        invariant handle.pos == old(handle.pos) + Min(pulled, |rest0|)
        invariant handle.returnCalls == old(handle.returnCalls) && handle.throwCalls == old(handle.throwCalls)
        decreases Pending(result, handle.Rest())
      {
        var next := Reduced(transformer, f, accumulator, result.value.value, index);
        if next.Thrown? {
          r := Thrown(next.error);
          return;
        }
        assert ReduceAfter(DoneIgnored(result), handle.Rest(), transformer, f, accumulator, index)
            == ReduceFrom(handle.Rest(), transformer, f, next.value, index + 1);
        accumulator := next.value;
        index, pulled := index + 1, pulled + 1;
        result := handle.Next();
      }
      if result.Thrown? {
        r := Thrown(result.error);
        return;
      }
      r := Normal(accumulator);
    }
  }

  // -------------------------------------------------------------- properties

  /** Without errors, `at(n)` hands back the n-th transformed value itself
      when it is truthy, and a promise of it when it is falsy; past the end
      or for a negative index, a promise of `undefined`. */
  lemma AtAnswers(s: seq<Completion<Value>>, transformer: Option<Transformer>, n: int)
    requires AllNormal(s) && TransformNeverThrows(transformer)
    ensures var a := AtAnswer(AtFrom(s, transformer, n, 0).result);
      var ys := TransformAll(transformer, Values(s));
      && (0 <= n < |s| ==> (a.Immediate? <==> Truthy(ys[n])) && (a.Immediate? ==> a.value == ys[n])
                           && (a.Deferred? ==> a.settled == Normal(ys[n])))
      && (n < 0 || n >= |s| ==> a == Deferred(Normal(Undefined)))
  {
    if n < 0 {
      AtUnreached(s, transformer, n, 0);
    } else {
      assert NormalUpTo(s, n);
      if n < |s| {
        assert Apply(transformer, s[n].value) == Normal(TransformAll(transformer, Values(s))[n]);
      }
      AtMeaning(s, transformer, n, 0);
    }
  }

  /** The callbacks of every, some, find and forEach are not checked: with
      nothing to iterate the answer is the usual one, and a non-function is
      only noticed when the first value reaches it. */
  lemma UncheckedCallback(s: seq<Completion<Value>>, transformer: Option<Transformer>, callback: FnArg<Callback>)
    requires callback.NotFunction?
    ensures s == [] ==>
      && EveryFrom(s, transformer, Invoked(callback), 0).result == Normal(Bool(true))
      && SomeFrom(s, transformer, Invoked(callback), 0).result == Normal(Bool(false))
      && FindFrom(s, transformer, Invoked(callback), 0).result == Normal(Undefined)
      && ForEachFrom(s, transformer, Invoked(callback), [], 0).result == Normal([])
    ensures s != [] && s[0].Normal? && Apply(transformer, s[0].value).Normal? ==>
      && EveryFrom(s, transformer, Invoked(callback), 0).result == Thrown(NotCallableError)
      && SomeFrom(s, transformer, Invoked(callback), 0).result == Thrown(NotCallableError)
      && FindFrom(s, transformer, Invoked(callback), 0).result == Thrown(NotCallableError)
      && ForEachFrom(s, transformer, Invoked(callback), [], 0).result == Thrown(NotCallableError)
  {
  }

  /** `reduce` with an unchecked callback: an empty iterable without an
      initial value still reports the empty reduce; otherwise a
      non-function fails at the first value it is given. */
  lemma UncheckedReducer(s: seq<Completion<Value>>, transformer: Option<Transformer>, callback: FnArg<Reducer>, initial: Option<Value>)
    requires callback.NotFunction? && AllNormal(s) && TransformNeverThrows(transformer)
    ensures var o := ReduceCall(s, transformer, FnArg.Function(InvokedReducer(callback)), initial);
      && (initial.None? && |s| == 0 ==> o.result == Thrown(TypeErrorOf(EmptyReduceMessage)))
      && (initial.None? && |s| == 1 ==> o.result == Normal(Transformed(transformer, s[0].value)))
      && (initial.None? && |s| >= 2 ==> o.result == Thrown(NotCallableError))
      && (initial.Some? && |s| == 0 ==> o.result == Normal(initial.value))
      && (initial.Some? && |s| >= 1 ==> o.result == Thrown(NotCallableError))
  {
    var f := InvokedReducer(callback);
    if s != [] {
      var y := Transformed(transformer, s[0].value);
      assert Apply(transformer, s[0].value) == Normal(y);
      assert PullOf(s) == Normal(Yield(s[0].value));
      if initial.Some? {
        assert ReduceFrom(s, transformer, f, initial.value, 0).result == f(initial.value, y, 0);
      } else if |s| >= 2 {
        var z := Transformed(transformer, s[1].value);
        assert Apply(transformer, s[1].value) == Normal(z);
        assert PullOf(Tail(s)) == Normal(Yield(s[1].value));
        assert ReduceFrom(Tail(s), transformer, f, y, 1).result == f(y, z, 1);
      } else {
        assert Tail(s) == [];
        assert ReduceFrom([], transformer, f, y, 1).result == Normal(y);
      }
    } else if initial.Some? {
      assert ReduceFrom(s, transformer, f, initial.value, 0).result == Normal(initial.value);
    }
  }
}
