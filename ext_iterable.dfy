/** The ExtendedIterable class of src/extended-iterable.ts on its
    synchronous paths: construction, the lazy combinators that wrap the
    handle in a decorator, and the terminal operations that drain it. */
module ExtendedIterables {
  import opened JsValues
  import opened Sequences
  import opened Handles
  import opened Arguments
  import opened Resolution
  import opened ExtendedDecorators
  import opened ExtendedTerminals

  /** `drop(0)` returns the iterable itself. */
  datatype Dropped = Unchanged(same: ExtendedIterable) | Dropping(dropper: DropIterator)

  /** An empty slice is a new iterable over an empty generator. */
  datatype Sliced = EmptySlice(empty: ExtendedIterable) | Slicing(slicer: SliceIterator)

  /** The generator object `function*() {}()`: it yields nothing, can be
      released, and rethrows what it is thrown. */
  const EmptyGenerator: HandleSpec := HandleSpec([], Undefined, true, Rethrows)

  /** `new ExtendedIterable(handle, transformer)`: resolve the handle
      first, then check the transformer. */
  method Create(input: Input, transformer: FnArg<Transformer>) returns (r: Completion<ExtendedIterable>)
    ensures Resolve(input, NotIterableMessage).Thrown? ==> r == Thrown(TypeErrorOf(NotIterableMessage))
    ensures Resolve(input, NotIterableMessage).Normal? && CheckTransformer(transformer).Thrown?
            ==> r == Thrown(TypeErrorOf(TransformerMessage))
    ensures r.Normal? <==> Resolve(input, NotIterableMessage).Normal? && CheckTransformer(transformer).Normal?
    ensures r.Normal? ==>
      && fresh(r.value) && fresh(r.value.handle) && r.value.Valid()
      && r.value.Handle() == Resolve(input, NotIterableMessage).value
      && r.value.transformer == CheckTransformer(transformer).value
      && r.value.Untouched()
  {
    match Resolve(input, NotIterableMessage)
    case Thrown(e) =>
      r := Thrown(e);
    case Normal(spec) =>
      match CheckTransformer(transformer)
      case Thrown(e) =>
        r := Thrown(e);
      case Normal(t) =>
        var it := new ExtendedIterable(spec, t);
        r := Normal(it);
  }

  class ExtendedIterable {
    const handle: Source
    const transformer: Option<Transformer>

    ghost predicate Valid()
      reads this, handle
    {
      handle.Valid()
    }

    /** The behaviour of the handle this iterable reads. */
    function Handle(): HandleSpec
      reads this
    {
      HandleSpec(handle.script, handle.doneValue, handle.hasReturn, handle.throwCap)
    }

    /** Nothing has been asked of the handle yet. */
    predicate Untouched()
      reads this, handle
    {
      handle.pos == 0 && handle.pulls == 0 && handle.returnCalls == 0 && handle.throwCalls == 0
    }

    constructor (spec: HandleSpec, transformer: Option<Transformer>)
      ensures Valid() && fresh(handle)
      ensures Handle() == spec && this.transformer == transformer && Untouched()
    {
      handle := new Source(spec);
      this.transformer := transformer;
    }

    // ------------------------------------------------------------ combinators

    method Map(callback: FnArg<Callback>) returns (r: Completion<MapIterator>)
      requires Valid()
      ensures r.Thrown? <==> callback.NotFunction?
      ensures r.Thrown? ==> r.error == TypeErrorOf(CallbackMessage)
      ensures r.Normal? ==>
        && fresh(r.value) && r.value.Valid() && r.value.Emitted == [] && r.value.index == 0
        && r.value.up == handle && callback == FnArg.Function(r.value.callback) && r.value.transformer == transformer
    {
      match CheckCallback(callback)
      case Thrown(e) =>
        r := Thrown(e);
      case Normal(f) =>
        var m := new MapIterator(handle, f, transformer);
        r := Normal(m);
    }

    method Filter(callback: FnArg<Callback>) returns (r: Completion<FilterIterator>)
      requires Valid()
      ensures r.Thrown? <==> callback.NotFunction?
      ensures r.Thrown? ==> r.error == TypeErrorOf(CallbackMessage)
      ensures r.Normal? ==>
        && fresh(r.value) && r.value.Valid() && r.value.Emitted == [] && r.value.index == 0
        && r.value.up == handle && callback == FnArg.Function(r.value.callback) && r.value.transformer == transformer
    {
      match CheckCallback(callback)
      case Thrown(e) =>
        r := Thrown(e);
      case Normal(f) =>
        var m := new FilterIterator(handle, f, transformer);
        r := Normal(m);
    }

    method FlatMap(callback: FnArg<Callback>) returns (r: Completion<FlatMapIterator>)
      requires Valid()
      ensures r.Thrown? <==> callback.NotFunction?
      ensures r.Thrown? ==> r.error == TypeErrorOf(CallbackMessage)
      ensures r.Normal? ==>
        && fresh(r.value) && r.value.Valid() && r.value.Emitted == [] && r.value.index == 0
        && r.value.up == handle && callback == FnArg.Function(r.value.callback) && r.value.transformer == transformer
    {
      match CheckCallback(callback)
      case Thrown(e) =>
        r := Thrown(e);
      case Normal(f) =>
        var m := new FlatMapIterator(handle, f, transformer);
        r := Normal(m);
    }

    method Take(limit: Value) returns (r: Completion<TakeIterator>)
      requires Valid()
      ensures r.Thrown? <==> CheckCount(limit, "limit").Thrown?
      ensures r.Thrown? ==> r.error == CheckCount(limit, "limit").error
      ensures r.Normal? ==>
        && fresh(r.value) && r.value.Valid() && r.value.Emitted == [] && r.value.count == 0
        && r.value.up == handle && r.value.limit == limit.n && r.value.transformer == transformer
    {
      match CheckCount(limit, "limit")
      case Thrown(e) =>
        r := Thrown(e);
      case Normal(n) =>
        var m := new TakeIterator(handle, n, transformer);
        r := Normal(m);
    }

    method Drop(count: Value) returns (r: Completion<Dropped>)
      requires Valid()
      ensures r.Thrown? <==> CheckCount(count, "Count").Thrown?
      ensures r.Thrown? ==> r.error == CheckCount(count, "Count").error
      ensures r.Normal? ==> (r.value.Unchanged? <==> count == Num(0))
      ensures r.Normal? && r.value.Unchanged? ==> r.value.same == this
      ensures r.Normal? && r.value.Dropping? ==>
        && fresh(r.value.dropper) && r.value.dropper.Valid() && r.value.dropper.Emitted == []
        && r.value.dropper.up == handle && r.value.dropper.count == count.n
        && r.value.dropper.transformer == transformer
    {
      match CheckCount(count, "Count")
      case Thrown(e) =>
        r := Thrown(e);
      case Normal(n) =>
        if n == 0 {
          r := Normal(Unchanged(this));
        } else {
          var m := new DropIterator(handle, n, transformer);
          r := Normal(Dropping(m));
        }
    }

    method Slice(start: Value, end: Value) returns (r: Completion<Sliced>)
      requires Valid()
      ensures r.Thrown? <==> CheckSlice(start, end).Thrown?
      ensures r.Thrown? ==> r.error == CheckSlice(start, end).error
      ensures r.Normal? ==> (r.value.EmptySlice? <==> CheckSlice(start, end).value.EmptyWindow?)
      ensures r.Normal? && r.value.EmptySlice? ==>
        && fresh(r.value.empty) && fresh(r.value.empty.handle) && r.value.empty.Valid()
        && r.value.empty.Handle() == EmptyGenerator && r.value.empty.transformer.None?
        && r.value.empty.Untouched()
      ensures r.Normal? && r.value.Slicing? ==>
        && fresh(r.value.slicer) && r.value.slicer.Valid() && r.value.slicer.Emitted == []
        && r.value.slicer.up == handle && r.value.slicer.transformer == transformer
        && CheckSlice(start, end).value == Window(r.value.slicer.startIndex, r.value.slicer.endIndex)
    {
      match CheckSlice(start, end)
      case Thrown(e) =>
        r := Thrown(e);
      case Normal(EmptyWindow) =>
        var it := new ExtendedIterable(EmptyGenerator, None);
        r := Normal(EmptySlice(it));
      case Normal(Window(a, b)) =>
        var m := new SliceIterator(handle, a, b, transformer);
        r := Normal(Slicing(m));
    }

    /** `concat(other)` resolves `other` at once. */
    method Concat(other: Input) returns (r: Completion<ConcatIterator>)
      requires Valid()
      ensures r.Thrown? <==> Resolve(other, NotIterableMessage).Thrown?
      ensures r.Thrown? ==> r.error == TypeErrorOf(NotIterableMessage)
      ensures r.Normal? ==>
        && fresh(r.value) && fresh(r.value.second) && r.value.Valid() && r.value.Emitted == []
        && r.value.up == handle && r.value.transformer == transformer
        && r.value.second.script == Resolve(other, NotIterableMessage).value.script
        && r.value.second.pos == 0
    {
      match Resolve(other, NotIterableMessage)
      case Thrown(e) =>
        r := Thrown(e);
      case Normal(spec) =>
        var second := new Source(spec);
        var m := new ConcatIterator(handle, second, transformer);
        r := Normal(m);
    }

    method MapError(catchCallback: FnArg<Transformer>) returns (r: Completion<ErrorMappingIterator>)
      requires Valid()
      ensures r.Thrown? <==> CheckCatchCallback(catchCallback).Thrown?
      ensures r.Thrown? ==> r.error == TypeErrorOf(CallbackMessage)
      ensures r.Normal? ==>
        && fresh(r.value) && r.value.Valid() && r.value.Emitted == []
        && r.value.up == handle && r.value.transformer == transformer
        && r.value.catchCallback == CheckCatchCallback(catchCallback).value
    {
      match CheckCatchCallback(catchCallback)
      case Thrown(e) =>
        r := Thrown(e);
      case Normal(c) =>
        var m := new ErrorMappingIterator(handle, c, transformer);
        r := Normal(m);
    }

    // ------------------------------------------------------------ terminals

    /** The `asArray` getter. */
    method AsArray() returns (r: Completion<seq<Value>>)
      requires Valid()
      modifies handle
      ensures Valid()
      ensures var o := AsArrayFrom(old(handle.Rest()), transformer, [], 0);
        r == o.result && Drove(handle, old(handle.Rest()), o)
    {
      ghost var rest0 := handle.Rest();
      var acc: seq<Value> := [];
      ghost var index: nat := 0;
      var result := handle.Next();
      while IsYield(result)
        invariant handle.Valid()
        invariant AsArrayFrom(rest0, transformer, [], 0) == AsArrayAfter(DoneIgnored(result), handle.Rest(), transformer, acc, index)
        invariant handle.pulls == old(handle.pulls) + index + 1
        invariant handle.pos == old(handle.pos) + Min(index + 1, |rest0|)
        invariant handle.returnCalls == old(handle.returnCalls) && handle.throwCalls == old(handle.throwCalls)
        decreases Pending(result, handle.Rest())
      {
        var y := Apply(transformer, result.value.value);
        if y.Thrown? {
          FailIfPossible(handle, y.error);
          r := Thrown(y.error);
          return;
        }
        acc := acc + [y.value];
        result := handle.Next();
        index := index + 1;
      }
      if result.Thrown? {
        FailIfPossible(handle, result.error);
        r := Thrown(result.error);
        return;
      }
      ReleaseIfPossible(handle);
      r := Normal(acc);
    }

    method At(index: Value) returns (r: Completion<Value>)
      requires Valid()
      modifies handle
      ensures Valid()
      ensures var o := AtCall(old(handle.Rest()), transformer, index);
        r == o.result && Drove(handle, old(handle.Rest()), o)
    {
      ghost var rest0 := handle.Rest();
      var n: nat;
      match CheckCount(index, "index")
      case Thrown(e) =>
        r := Thrown(e);
        return;
      case Normal(k) =>
        n := k;
      var current: nat := 0;
      var result := handle.Next();
      while IsYield(result)
        invariant handle.Valid()
        invariant AtCall(rest0, transformer, index) == AtAfter(DoneIgnored(result), handle.Rest(), transformer, n, current)
        invariant handle.pulls == old(handle.pulls) + current + 1
        invariant handle.pos == old(handle.pos) + Min(current + 1, |rest0|)
        invariant handle.returnCalls == old(handle.returnCalls) && handle.throwCalls == old(handle.throwCalls)
        decreases Pending(result, handle.Rest())
      {
        if current == n {
          var y := Apply(transformer, result.value.value);
          if y.Thrown? {
            FailIfPossible(handle, y.error);
            r := Thrown(y.error);
          } else {
            ReleaseIfPossible(handle);
            r := y;
          }
          return;
        }
        current := current + 1;
        result := handle.Next();
      }
      if result.Thrown? {
        FailIfPossible(handle, result.error);
        r := Thrown(result.error);
        return;
      }
      ReleaseIfPossible(handle);
      r := Normal(Undefined);
    }

    method Every(callback: FnArg<Callback>) returns (r: Completion<Value>)
      requires Valid()
      modifies handle
      ensures Valid()
      ensures var o := EveryCall(old(handle.Rest()), transformer, callback);
        r == o.result && Drove(handle, old(handle.Rest()), o)
    {
      ghost var rest0 := handle.Rest();
      var f: Callback;
      match CheckCallback(callback)
      case Thrown(e) =>
        r := Thrown(e);
        return;
      case Normal(g) =>
        f := g;
      var result := handle.Next();
      var index: nat := 0;
      while IsYield(result)
        invariant handle.Valid()
        invariant EveryCall(rest0, transformer, callback) == EveryAfter(DoneIgnored(result), handle.Rest(), transformer, f, index)
        invariant handle.pulls == old(handle.pulls) + index + 1
        invariant handle.pos == old(handle.pos) + Min(index + 1, |rest0|)
        invariant handle.returnCalls == old(handle.returnCalls) && handle.throwCalls == old(handle.throwCalls)
        decreases Pending(result, handle.Rest())
      {
        var answer := Judged(transformer, f, result.value.value, index);
        if answer.Thrown? {
          FailIfPossible(handle, answer.error);
          r := Thrown(answer.error);
          return;
        }
        if !Truthy(answer.value) {
          ReleaseIfPossible(handle);
          r := Normal(Bool(false));
          return;
        }
        assert EveryAfter(DoneIgnored(result), handle.Rest(), transformer, f, index)
            == EveryFrom(handle.Rest(), transformer, f, index + 1);
        index := index + 1;
        result := handle.Next();
      }
      if result.Thrown? {
        r := Thrown(result.error);
        return;
      }
      ReleaseIfPossible(handle);
      r := Normal(Bool(true));
    }

    method Some(callback: FnArg<Callback>) returns (r: Completion<Value>)
      requires Valid()
      modifies handle
      ensures Valid()
      ensures var o := SomeCall(old(handle.Rest()), transformer, callback);
        r == o.result && Drove(handle, old(handle.Rest()), o)
    {
      ghost var rest0 := handle.Rest();
      var f: Callback;
      match CheckCallback(callback)
      case Thrown(e) =>
        r := Thrown(e);
        return;
      case Normal(g) =>
        f := g;
      var result := handle.Next();
      var index: nat := 0;
      while IsYield(result)
        invariant handle.Valid()
        invariant SomeCall(rest0, transformer, callback) == SomeAfter(DoneIgnored(result), handle.Rest(), transformer, f, index)
        invariant handle.pulls == old(handle.pulls) + index + 1
        invariant handle.pos == old(handle.pos) + Min(index + 1, |rest0|)
        invariant handle.returnCalls == old(handle.returnCalls) && handle.throwCalls == old(handle.throwCalls)
        decreases Pending(result, handle.Rest())
      {
        var y := Apply(transformer, result.value.value);
        if y.Thrown? {
          r := Thrown(y.error);
          return;
        }
        var answer := f(y.value, index);
        if answer.Thrown? {
          r := Thrown(answer.error);
          return;
        }
        if Truthy(answer.value) {
          ReleaseIfPossible(handle);
          r := Normal(Bool(true));
          return;
        }
        index := index + 1;
        result := handle.Next();
      }
      if result.Thrown? {
        r := Thrown(result.error);
        return;
      }
      r := Normal(Bool(false));
    }

    method Find(callback: FnArg<Callback>) returns (r: Completion<Value>)
      requires Valid()
      modifies handle
      ensures Valid()
      ensures var o := FindCall(old(handle.Rest()), transformer, callback);
        r == o.result && Drove(handle, old(handle.Rest()), o)
    {
      ghost var rest0 := handle.Rest();
      var f: Callback;
      match CheckCallback(callback)
      case Thrown(e) =>
        r := Thrown(e);
        return;
      case Normal(g) =>
        f := g;
      var result := handle.Next();
      var index: nat := 0;
      while IsYield(result)
        invariant handle.Valid()
        invariant FindCall(rest0, transformer, callback) == FindAfter(DoneIgnored(result), handle.Rest(), transformer, f, index)
        invariant handle.pulls == old(handle.pulls) + index + 1
        invariant handle.pos == old(handle.pos) + Min(index + 1, |rest0|)
        invariant handle.returnCalls == old(handle.returnCalls) && handle.throwCalls == old(handle.throwCalls)
        decreases Pending(result, handle.Rest())
      {
        var y := Apply(transformer, result.value.value);
        if y.Thrown? {
          r := Thrown(y.error);
          return;
        }
        var answer := f(y.value, index);
        if answer.Thrown? {
          r := Thrown(answer.error);
          return;
        }
        if Truthy(answer.value) {
          ReleaseIfPossible(handle);
          r := y;
          return;
        }
        index := index + 1;
        result := handle.Next();
      }
      if result.Thrown? {
        r := Thrown(result.error);
        return;
      }
      r := Normal(Undefined);
    }

    /** `forEach(callback)`; `seen` lists the values the callback was given. */
    method ForEach(callback: FnArg<Callback>) returns (r: Completion<Value>, ghost seen: seq<Value>)
      requires Valid()
      modifies handle
      ensures Valid()
      ensures var o := ForEachCall(old(handle.Rest()), transformer, callback);
        && (o.result.Normal? ==> r == Normal(Undefined) && seen == o.result.value)
        && (o.result.Thrown? ==> r == Thrown(o.result.error))
        && Drove(handle, old(handle.Rest()), o)
    {
      ghost var rest0 := handle.Rest();
      seen := [];
      var f: Callback;
      match CheckCallback(callback)
      case Thrown(e) =>
        r := Thrown(e);
        return;
      case Normal(g) =>
        f := g;
      var result := handle.Next();
      var index: nat := 0;
      while IsYield(result)
        invariant handle.Valid()
        invariant ForEachCall(rest0, transformer, callback) == ForEachAfter(DoneIgnored(result), handle.Rest(), transformer, f, seen, index)
        invariant handle.pulls == old(handle.pulls) + index + 1
        invariant handle.pos == old(handle.pos) + Min(index + 1, |rest0|)
        invariant handle.returnCalls == old(handle.returnCalls) && handle.throwCalls == old(handle.throwCalls)
        decreases Pending(result, handle.Rest())
      {
        var y := Apply(transformer, result.value.value);
        if y.Thrown? {
          r := Thrown(y.error);
          return;
        }
        var answer := f(y.value, index);
        if answer.Thrown? {
          r := Thrown(answer.error);
          return;
        }
        seen := seen + [y.value];
        index := index + 1;
        result := handle.Next();
      }
      if result.Thrown? {
        r := Thrown(result.error);
        return;
      }
      r := Normal(Undefined);
    }

    /** `reduce(callback[, initial])`; `initial` is None when the call
        passes a single argument. */
    method Reduce(callback: FnArg<Reducer>, initial: Option<Value>) returns (r: Completion<Value>)
      requires Valid()
      modifies handle
      ensures Valid()
      ensures var o := ReduceCall(old(handle.Rest()), transformer, callback, initial);
        r == o.result && Drove(handle, old(handle.Rest()), o)
    {
      var f: Reducer;
      match CheckCallback(callback)
      case Thrown(e) =>
        r := Thrown(e);
        return;
      case Normal(g) =>
        f := g;
      if initial.Some? {
        r := ReduceRemaining(f, initial.value, 0);
        return;
      }
      var first := handle.Next();
      if first.Thrown? {
        r := Thrown(first.error);
        return;
      }
      if first.value.Done? {
        r := Thrown(TypeErrorOf(EmptyReduceMessage));
        return;
      }
      var y := Apply(transformer, first.value.value);
      if y.Thrown? {
        r := Thrown(y.error);
        return;
      }
      r := ReduceRemaining(f, y.value, 1);
    }

    /** The loop of `reduce`, from accumulator `acc` and callback index
        `index` on. */
    method ReduceRemaining(f: Reducer, acc0: Value, index0: nat) returns (r: Completion<Value>)
      requires Valid()
      modifies handle
      ensures Valid()
      ensures var o := ReduceFrom(old(handle.Rest()), transformer, f, acc0, index0);
        && r == o.result
        && handle.pulls == old(handle.pulls) + o.pulls - index0
        && handle.pos == old(handle.pos) + Min(o.pulls - index0, |old(handle.Rest())|)
        && handle.returnCalls == old(handle.returnCalls) && handle.throwCalls == old(handle.throwCalls)
    {
      ghost var rest0 := handle.Rest();
      var acc, index := acc0, index0;
      var result := handle.Next();
      ghost var pulled: nat := 1;
      while IsYield(result)
        invariant handle.Valid() && index == index0 + pulled - 1
        invariant ReduceFrom(rest0, transformer, f, acc0, index0) == ReduceAfter(DoneIgnored(result), handle.Rest(), transformer, f, acc, index)
        invariant handle.pulls == old(handle.pulls) + pulled
        invariant handle.pos == old(handle.pos) + Min(pulled, |rest0|)
        invariant handle.returnCalls == old(handle.returnCalls) && handle.throwCalls == old(handle.throwCalls)
        decreases Pending(result, handle.Rest())
      {
        var next := Reduced(transformer, f, acc, result.value.value, index);
        if next.Thrown? {
          r := Thrown(next.error);
          return;
        }
        assert ReduceAfter(DoneIgnored(result), handle.Rest(), transformer, f, acc, index)
            == ReduceFrom(handle.Rest(), transformer, f, next.value, index + 1);
        acc := next.value;
        index, pulled := index + 1, pulled + 1;
        result := handle.Next();
      }
      if result.Thrown? {
        r := Thrown(result.error);
        return;
      }
      r := Normal(acc);
    }
  }
}
