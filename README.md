# extended-iterable, synchronous core, in Dafny

`extended-iterable` wraps an iterator, an iterable or a generator function
in an `ExtendedIterable`. Lazy combinators (`map`, `filter`, `flatMap`,
`take`, `drop`, `slice`, `concat`, `mapError`) return a new wrapper around
a decorator iterator. Terminal operations (`asArray`, `at`, `every`,
`some`, `find`, `forEach`, `reduce`) drain the iterator. A wrapper may
carry a per-element transformer, which it applies before anything else
sees a value. The library has three parts, and this project models the
synchronous paths of all three:

- `src/extended-iterable.ts`: the full version. It validates arguments
  eagerly. It releases the handle (`return()`) when a terminal operation
  stops early, and reports failures to it (`throw(err)`).
- `src/index.ts`: the older, synchronous-only version. It validates nothing
  but the constructor, never releases or fails its handle, and resolves the
  second argument of `concat` lazily.
- `src/iterators/`: the stand-alone `BaseIterator`, `FilterIterator` and
  `TakeIterator` classes.

## How the model is built

- **Values** (`values.dfy`, module `JsValues`). JavaScript values are a
  datatype: undefined, null, booleans, integer numbers, strings, arrays,
  opaque objects, iterable objects (a Set, a Map, a generator object, a
  user-defined iterable, given by the elements its iterator yields) and
  errors. Truthiness and `String(v)` are defined on it.
  A call either returns normally or throws: `Completion`. An iterator
  result is `Yield(v)` or `Done(v)`. Callbacks and transformers are Dafny
  functions that return a `Completion`. An argument that should be a
  function is an `FnArg`, which is either a function or some other value.
- **Handles** (`handles.dfy`, module `Handles`). Every iterator the library
  reads from is a `Source` object with a script. The k-th `next()` returns
  the k-th script entry, which is a value or a throw. After the script,
  every call returns `done`. A handle may or may not have `return` and
  `throw` methods. `Source` counts its pulls, releases and failures. So a
  contract can state exactly how often a decorator or a terminal pulled,
  released and failed its handle.
- **Decorators** (`ext_decorators.dfy`, `sync_decorators.dfy`,
  `iterators.dfy`). Each decorator is a class with the source's mutable
  fields (`index`, `count`, `dropped`/`doneSkipping`, `yielding`,
  `firstDone`, the sub-iterator) and methods that update them. Each class
  keeps a ghost history `Emitted` of what its `next()` returned. Its
  invariant `Valid()` ties that history, the fields and the handle's
  failure count to a *run function*. A run function is a pure fold over the
  handle entries consumed so far (`MapRun`, `FilterRun`, `TakeRun`,
  `DropRun`, `SliceRun`, `FlatMapRun`, `ErrorMapRun`, `LimitRun`). Lemmas
  then say what the run functions compute on error-free input, using
  reference definitions over plain sequences (`FilterIndexed`, `Take`,
  `Drop`, `Slice`, `FlatMapped`, `TransformAll`).
- **Terminals** (`ext_terminals.dfy`, `ext_iterable.dfy`,
  `sync_iterable.dfy`). Each terminal operation is a `while` loop over its
  handle, proved equal to a pair of recursive functions over the entries
  the handle has left. The result is an `Outcome`: the value or error, the
  number of pulls, and whether the handle was released or failed. Lemmas
  give the meaning of each function on error-free input.
- **Both versions**. The `src/index.ts` decorators reuse the run functions
  of `src/extended-iterable.ts` wherever they treat a pull the same way.
  The differences show in the contracts: unchecked arguments, no reports to
  the upstream handle, and the lazy `concat`.

Where the two versions differ, the model follows each file's own code:

- In `src/extended-iterable.ts`, `ConcatIterator` has no `return()` of its
  own. The inherited `BaseIterator.return()` releases only the first
  handle, and `ConcatIterator.Return` models exactly that.
- In `src/index.ts`, `slice(s, e)` with `s >= e` still pulls and discards
  `s` values before it reports done. `src/extended-iterable.ts` returns an
  empty generator in that case.
- In `src/iterators/take-iterator.ts`, an invalid limit whose upstream
  `throw()` completes leaves `#limit` unset. Then `count >= limit` is never
  true, and the iterator has no limit. `src/iterators/filter-iterator.ts`
  behaves the same way: a non-function callback reported to a completing
  `throw()` stays in place, and every call of it fails.

## Model

| member | source | states |
|---|---|---|
| Handles.BaseReturn | src/extended-iterable.ts:26-28 | `return()` releases the wrapped handle exactly when it has a `return` method, and reports `{done: true, value: undefined}` |
| Handles.BaseThrow | src/extended-iterable.ts:30-35 | `throw(err)` fails the wrapped handle once when it has a `throw` method, and returns that method's outcome; without one, `err` is rethrown |
| Resolution.Resolve | src/extended-iterable.ts:1692-1710 | an input resolves exactly when it has `Symbol.iterator`, is a generator function, or is an object with `next`, in that order of preference: to the handle its `[Symbol.iterator]()` returns, to the generator that calling the function gives, or to the object itself; an array resolves to a handle over its elements, a non-empty string to one over its characters, and an iterable object value (a Set, a generator object) to one over the elements its iterator yields; the empty string is falsy, fails the `iterator &&` test and throws like anything else unresolvable, a TypeError with the given message |
| Arguments.CheckCallback | src/extended-iterable.ts:603-606 | passes exactly when the callback is a function; otherwise throws TypeError 'Callback is not a function' |
| Arguments.CheckTransformer | src/extended-iterable.ts:52-54 | throws 'Transformer must be a function' exactly for a truthy non-function; a falsy one means no transformer; a function is kept |
| Arguments.CheckCatchCallback | src/extended-iterable.ts:1082-1086 | the `mapError` check: throws exactly for a truthy non-function; a falsy one means no catch callback |
| Arguments.CheckCount | src/extended-iterable.ts:391-396 | accepts exactly non-negative numbers, zero included, and returns them; a TypeError '<name> is not a number' for a non-number, a RangeError '<name> must be a positive number' for a negative number |
| Arguments.CheckBound | src/extended-iterable.ts:1315-1330 | an omitted bound is accepted as absent; a given one is checked as a count, with the same errors |
| Arguments.CheckSlice | src/extended-iterable.ts:1314-1337 | the start is checked first, then the end; the window is empty exactly when an end is given and the start (default 0) is at or past it |
| Arguments.SliceWindowSelects | src/extended-iterable.ts:1332-1342 | for any input, the window chosen (an empty generator, or a SliceIterator) selects `xs.slice(start, end)` |
| ExtendedDecorators.MapRunLength | src/extended-iterable.ts:992-1026 | map emits exactly one result per upstream pull, errors included |
| ExtendedDecorators.MapRunMeaning | src/extended-iterable.ts:992-1026 | without errors, the i-th result is `callback(transform(x_i), i)`, and nothing is reported upstream |
| ExtendedDecorators.MapIterator.constructor | src/extended-iterable.ts:983-990 | a fresh MapIterator over the handle, with index 0 and nothing emitted |
| ExtendedDecorators.MapIterator.Next | src/extended-iterable.ts:992-1026 | one pull per call; a consumed entry adds exactly one result; upstream done is passed on as is; each transformer or callback error is one more upstream `throw()` |
| ExtendedDecorators.FilterRunMeaning | src/extended-iterable.ts:626-650 | without errors, filter yields exactly the transformed values its callback accepts, in order; the index counts every value examined |
| ExtendedDecorators.FilterRunKeepsErrors | src/extended-iterable.ts:666-701 | every thrown pull shows up among the results; unless the upstream `throw()` completes, so does every transformer error and every callback error, the callback being called with the index the values before it give |
| ExtendedDecorators.FilterIterator.constructor | src/extended-iterable.ts:617-624 | a fresh FilterIterator, with index 0 and nothing emitted |
| ExtendedDecorators.FilterIterator.Next | src/extended-iterable.ts:626-650 | pulls until a value is kept or an error is returned; at exhaustion returns upstream's done result; never releases the handle |
| ExtendedDecorators.FilterIterator.ProcessResult | src/extended-iterable.ts:666-701 | `#processResult` on one value: keeps it, rejects it (nothing emitted), or routes a transformer or callback error to `throw()` and returns the outcome |
| ExtendedDecorators.TakeRunMeaning | src/extended-iterable.ts:1606-1642 | below the limit, without errors, take yields the transformed values in order, one per pull |
| ExtendedDecorators.TakeRunComplete | src/extended-iterable.ts:1606-1642 | after pulling up to `limit` values, take has yielded exactly the first `limit` transformed values |
| ExtendedDecorators.TakeIterator.constructor | src/extended-iterable.ts:1597-1604 | a fresh TakeIterator with count 0 |
| ExtendedDecorators.TakeIterator.Next | src/extended-iterable.ts:1606-1642 | at the limit: done, no pull, and the handle is released on every such call; below it: one pull, with a value counted and emitted, and a pull or transformer error reported to `throw()` and rethrown |
| ExtendedDecorators.DropRunMeaning | src/extended-iterable.ts:416-443 | without errors, drop yields the transformed values after the first `count`; it drops `min(count, n)` values once and stops skipping after that |
| ExtendedDecorators.DropIterator.constructor | src/extended-iterable.ts:411-414 | a fresh DropIterator, still skipping, nothing dropped |
| ExtendedDecorators.DropIterator.Next | src/extended-iterable.ts:416-443 | skips while fewer than `count` values have been dropped, then passes one entry through `#transformResult`; upstream done is returned as is; never releases or fails the handle |
| ExtendedDecorators.SliceRunMeaning | src/extended-iterable.ts:1375-1435 | without errors, the values before `startIndex` are skipped and the later ones are transformed, in order |
| ExtendedDecorators.SliceRunComplete | src/extended-iterable.ts:1361-1435 | after pulling up to the end index, slice has yielded exactly `slice(start, end)` of the transformed values |
| ExtendedDecorators.SliceIterator.constructor | src/extended-iterable.ts:1350-1359 | a fresh SliceIterator for a non-empty range |
| ExtendedDecorators.SliceIterator.Next | src/extended-iterable.ts:1361-1373 | past the end of the range: done without pulling; otherwise skips to the start, then emits one result; upstream done is returned as is |
| ExtendedDecorators.SliceIterator.SkipToStart | src/extended-iterable.ts:1375-1393 | pulls and discards values until the start; an error ends the call, and the next call goes on skipping |
| ExtendedDecorators.SliceIterator.GetNextValue | src/extended-iterable.ts:1419-1435 | one pull past the start; a value bumps the index and is transformed |
| ExtendedDecorators.ConcatMeaning | src/extended-iterable.ts:324-376 | without errors, concat yields the first handle's values transformed, then the second handle's values untransformed |
| ExtendedDecorators.ConcatIterator.constructor | src/extended-iterable.ts:328-335 | both handles, the second already resolved, and neither consumed |
| ExtendedDecorators.ConcatIterator.Next | src/extended-iterable.ts:337-357 | pulls the first handle until it is done, then the second; what was emitted is the first handle's entries transformed, followed by the second's untransformed |
| ExtendedDecorators.ConcatIterator.GetNextFromOther | src/extended-iterable.ts:359-375 | one pull from the second handle, passed through untransformed |
| ExtendedDecorators.ConcatIterator.Return | src/extended-iterable.ts:26-28 | the inherited `return()`: only the first handle is released |
| ExtendedDecorators.FlatMapRunMeaning | src/extended-iterable.ts:811-892 | without errors, flatMap yields each transformed value's callback result, in order, with the value's position as index: a result with `Symbol.iterator` (an array, a string, a Set, a Map, a generator object, a user-defined iterable) is spread into its elements, anything else is one value |
| ExtendedDecorators.FlatMappedIterables | src/extended-iterable.ts:875-891 | when every callback result has `Symbol.iterator`, flatMap is the concatenation of the elements their iterators yield, in order |
| ExtendedDecorators.FlatMapIterator.constructor | src/extended-iterable.ts:816-823 | a fresh FlatMapIterator with no sub-iterator |
| ExtendedDecorators.FlatMapIterator.Next | src/extended-iterable.ts:825-840 | drains the current sub-result before pulling again; an empty sub-result moves on to the next value; at exhaustion reports done |
| ExtendedDecorators.FlatMapIterator.NextFromSub | src/extended-iterable.ts:829-840 | yields the sub-iterator's next element and keeps the rest |
| ExtendedDecorators.FlatMapIterator.GetNextFromMain | src/extended-iterable.ts:842-850 | one pull from the main handle: an error is passed on, done ends the iteration, a value is processed |
| ExtendedDecorators.FlatMapIterator.ProcessMainResult | src/extended-iterable.ts:852-873 | a transformer error goes to `throw()` and is rethrown; otherwise the callback result is processed |
| ExtendedDecorators.FlatMapIterator.ProcessCallbackResult | src/extended-iterable.ts:875-891 | a result with `Symbol.iterator` (array, string or iterable object) becomes the new sub-iterator, and the caller pulls from it; anything else is yielded as one value |
| ExtendedDecorators.ErrorMapRunNeverThrows | src/extended-iterable.ts:1104-1143 | with a catch callback that does not throw, or none, mapError never throws: every pull gives a value |
| ExtendedDecorators.ErrorMapRunMeaning | src/extended-iterable.ts:1104-1143 | at each position, a pull error and a transformer error alike become the catch callback's result (the error itself without a callback), and a value the transformer accepts is yielded transformed; without errors, mapError yields the transformed values |
| ExtendedDecorators.ErrorMappingIterator.constructor | src/extended-iterable.ts:1095-1102 | a fresh ErrorMappingIterator |
| ExtendedDecorators.ErrorMappingIterator.Next | src/extended-iterable.ts:1104-1143 | one pull per call, exactly one result per consumed entry, never releasing or failing the handle |
| ExtendedDecorators.MapThenFilter | src/extended-iterable.ts:969-977 | `map(f).filter(g)`: map wraps its decorator in a new iterable without a transformer, which the filter link reads, so without errors the chain yields exactly the values `f(transform(x_i), i)` that `g` accepts at their positions, each element transformed once |
| ExtendedDecorators.TakeThenMap | src/extended-iterable.ts:1580-1591 | `take(n).map(f)`: without errors the chain yields `f(transform(x_i), i)` for the first `n` values, the transformer applied once by the take link |
| ExtendedTerminals.AsArrayCollects | src/extended-iterable.ts:104-160 | asArray returns every transformed value in pull order, or the first pull or transformer error; it releases the handle exactly on success and fails it exactly on error |
| ExtendedTerminals.AsArrayMeaning | src/extended-iterable.ts:104-160 | without errors: all transformed values, n+1 pulls, released once |
| ExtendedTerminals.AtMeaning | src/extended-iterable.ts:208-280 | `at(n)` is the n-th value, transformed, after n+1 pulls, and only that value is transformed; on shorter input, `undefined` after draining; the handle is released either way |
| ExtendedTerminals.AtUnreached | src/extended-iterable.ts:241-279 | a position that is never reached drains the handle and gives `undefined` |
| ExtendedTerminals.EveryMeaning | src/extended-iterable.ts:483-545 | without errors, every is true exactly when the callback accepts all transformed values; it stops right after the first rejection and releases the handle in both cases |
| ExtendedTerminals.SomeMeaning | src/extended-iterable.ts:1466-1516 | without errors, some is true exactly when the callback accepts some transformed value; it stops there and releases the handle only in that case |
| ExtendedTerminals.FindMeaning | src/extended-iterable.ts:718-753 | without errors, find returns the first accepted transformed value, releasing the handle, or `undefined` after draining without releasing |
| ExtendedTerminals.ForEachMeaning | src/extended-iterable.ts:905-934 | without errors, forEach visits every transformed value in order and never releases or fails the handle |
| ExtendedTerminals.ReduceFrom | src/extended-iterable.ts:1224-1250 | the reduce loop pulls at least once more and never releases or fails the handle |
| ExtendedTerminals.ReduceFolds | src/extended-iterable.ts:1224-1250 | without errors, the reduce loop is a left fold of the callback over the transformed values, with consecutive indices |
| ExtendedTerminals.ReduceMeaning | src/extended-iterable.ts:1192-1253 | with a seed: a fold from index 0; without one: seeded with the first transformed value from index 1, and on empty input a TypeError 'Reduce of empty iterable with no initial value' |
| ExtendedIterables.Create | src/extended-iterable.ts:46-56 | the handle is resolved first ('Argument is not iterable'), then the transformer is checked; the new wrapper holds the resolved handle, untouched |
| ExtendedIterables.ExtendedIterable.constructor | src/extended-iterable.ts:46-56 | a wrapper over a fresh, untouched handle |
| ExtendedIterables.ExtendedIterable.Map | src/extended-iterable.ts:969-977 | throws exactly for a non-function callback; otherwise a fresh MapIterator over the same handle, carrying the wrapper's transformer |
| ExtendedIterables.ExtendedIterable.Filter | src/extended-iterable.ts:603-611 | throws exactly for a non-function callback; otherwise a fresh FilterIterator |
| ExtendedIterables.ExtendedIterable.FlatMap | src/extended-iterable.ts:801-809 | throws exactly for a non-function callback; otherwise a fresh FlatMapIterator |
| ExtendedIterables.ExtendedIterable.Take | src/extended-iterable.ts:1580-1591 | the limit check's errors, exactly; otherwise a TakeIterator with that limit |
| ExtendedIterables.ExtendedIterable.Drop | src/extended-iterable.ts:390-404 | the count check's errors, exactly; `drop(0)` is the same wrapper; otherwise a DropIterator |
| ExtendedIterables.ExtendedIterable.Slice | src/extended-iterable.ts:1314-1342 | the bound checks' errors, exactly; an empty range gives a new wrapper over an empty generator; otherwise a SliceIterator for the checked window |
| ExtendedIterables.ExtendedIterable.Concat | src/extended-iterable.ts:314-322 | the other argument is resolved eagerly, with 'Argument is not iterable' when it cannot be; then a ConcatIterator over both handles |
| ExtendedIterables.ExtendedIterable.MapError | src/extended-iterable.ts:1082-1090 | throws exactly for a truthy non-function; otherwise an ErrorMappingIterator |
| ExtendedIterables.ExtendedIterable.AsArray | src/extended-iterable.ts:104-160 | the loop returns AsArrayFrom's result, with its pulls, release and failure applied to the handle |
| ExtendedIterables.ExtendedIterable.At | src/extended-iterable.ts:208-280 | the index is checked before any pull; then the loop returns AtFrom's result and effects |
| ExtendedIterables.ExtendedIterable.Every | src/extended-iterable.ts:483-545 | the callback is checked before any pull; then the loop returns EveryFrom's result and effects |
| ExtendedIterables.ExtendedIterable.Some | src/extended-iterable.ts:1466-1516 | the callback is checked before any pull; then the loop returns SomeFrom's result and effects |
| ExtendedIterables.ExtendedIterable.Find | src/extended-iterable.ts:718-753 | the callback is checked before any pull; then the loop returns FindFrom's result and effects |
| ExtendedIterables.ExtendedIterable.ForEach | src/extended-iterable.ts:905-934 | the callback is checked; the loop returns `undefined` after visiting ForEachFrom's values, or its error |
| ExtendedIterables.ExtendedIterable.Reduce | src/extended-iterable.ts:1192-1253 | the callback is checked, the seed is taken, and the loop returns ReduceCall's result and effects |
| ExtendedIterables.ExtendedIterable.ReduceRemaining | src/extended-iterable.ts:1224-1250 | the accumulation loop returns ReduceFrom's result, pulling as often as it says and never releasing or failing the handle |
| SyncDecorators.ProcessResult | src/index.ts:724-735 | done passes unchanged, and a value is transformed; without a transformer (or `this`), the result is unchanged |
| SyncDecorators.MapIterator.constructor | src/index.ts:482-483 | a fresh MapIterator with index 0 |
| SyncDecorators.MapIterator.Next | src/index.ts:485-498 | one pull per call and one result per consumed entry, as in the full version; errors are never reported upstream |
| SyncDecorators.FilterIterator.constructor | src/index.ts:324-325 | a fresh FilterIterator with index 0 |
| SyncDecorators.FilterIterator.Next | src/index.ts:327-344 | pulls until a value is kept; every error propagates as it is; at exhaustion returns upstream's done result |
| SyncDecorators.FilterIterator.Examine | src/index.ts:331-338 | one value: transformed, the index bumped, then kept or rejected |
| SyncDecorators.TakeIterator.constructor | src/index.ts:692-693 | a fresh TakeIterator with an unchecked limit |
| SyncDecorators.TakeIterator.Next | src/index.ts:695-711 | at the limit (at once for a limit of zero or less): done without pulling and without releasing; below it: one pull and one result |
| SyncDecorators.TakeWindow | src/index.ts:695-711 | without errors, take yields exactly the first `limit` transformed values, and nothing for a limit of zero or less |
| SyncDecorators.DropRunSkips | src/index.ts:257-260 | drop never skips more than `limit` values, and it stops skipping only after exactly `limit` |
| SyncDecorators.DropIterator.constructor | src/index.ts:245-246 | a fresh DropIterator with an unchecked limit |
| SyncDecorators.DropIterator.Next | src/index.ts:248-263 | skips while fewer than `limit` values have been skipped, then passes one result through `#processResult` |
| SyncDecorators.DropWindow | src/index.ts:248-263 | without errors, drop yields the transformed values after the first `limit`, and all of them for a limit of zero or less |
| SyncDecorators.SliceIterator.constructor | src/index.ts:611-614 | a fresh SliceIterator |
| SyncDecorators.SliceIterator.Next | src/index.ts:616-642 | skips to the start first, then reports done without pulling once the index reaches the end, and otherwise emits one result |
| SyncDecorators.SliceIterator.SkipToStart | src/index.ts:617-624 | pulls and discards values up to the start; upstream's done result ends the call early |
| SyncDecorators.SliceIterator.GetNextValue | src/index.ts:630-641 | one pull; a value bumps the index and is transformed |
| SyncDecorators.SliceWindow | src/index.ts:616-642 | without errors, slice yields `slice(start, end)` of the transformed values, and when `start >= end` it still consumes `start` values first |
| SyncDecorators.ConcatIterator.constructor | src/index.ts:186-188 | no second handle yet |
| SyncDecorators.ConcatIterator.Next | src/index.ts:190-211 | pulls the first handle through `#processResult` until it is done, then resolves the second argument once ('Invalid iterator' when it cannot be) and pulls from it |
| SyncDecorators.ConcatIterator.GetNextFromOther | src/index.ts:213-223 | one pull from the second handle, untransformed; done with `undefined` when there is none |
| SyncDecorators.FlatMapRunMeaning | src/index.ts:400-438 | without errors, flatMap yields the callback results that have `Symbol.iterator` (arrays, strings, Sets, Maps, generator objects, user-defined iterables) spread into their elements, in order, and skips the rest |
| SyncDecorators.FlatMappedIterables | src/index.ts:424-431 | when every callback result has `Symbol.iterator`, flatMap is the concatenation of the elements their iterators yield, in order |
| SyncDecorators.FlatMapIterator.constructor | src/index.ts:395-398 | a fresh FlatMapIterator with no sub-iterator, main not done |
| SyncDecorators.FlatMapIterator.Next | src/index.ts:400-438 | drains the sub-iterator first; once the main handle is done it stays done, with no more pulls |
| SyncDecorators.FlatMapIterator.NextFromSub | src/index.ts:403-410 | yields the sub-iterator's next element |
| SyncDecorators.FlatMapIterator.GetNextFromMain | src/index.ts:417-422 | one pull from the main handle; done marks the main handle finished |
| SyncDecorators.FlatMapIterator.ProcessMainResult | src/index.ts:424-436 | the value is transformed and passed to the callback; a result with `Symbol.iterator` (array, string or iterable object) becomes the sub-iterator, and anything else is skipped |
| SyncDecorators.AsError | src/index.ts:537 | an Error is kept; anything else becomes `new Error(String(v))` |
| SyncDecorators.MapErrorMeaning | src/index.ts:521-543 | at each position, a pull error and a transformer error alike, wrapped as an Error, become `{value: catchCallback(err)}` or the callback's own error; an unchecked non-function throws the host's TypeError; a value the transformer accepts is yielded transformed |
| SyncDecorators.MapErrorNeverThrows | src/index.ts:521-543 | with a catch callback that does not throw, mapError never throws |
| SyncDecorators.ErrorMappingIterator.constructor | src/index.ts:520 | a fresh ErrorMappingIterator |
| SyncDecorators.ErrorMappingIterator.Next | src/index.ts:521-543 | one pull and one result per consumed entry |
| SyncIterables.AtAnswer | src/index.ts:166 | `rval \|\| promise`: the value itself exactly when it is truthy, otherwise the settled promise |
| SyncIterables.ArrayAnswer | src/index.ts:123 | the array itself on success, otherwise the promise settled with the error |
| SyncIterables.Create | src/index.ts:36-46 | resolves the handle ('Invalid iterator') before it checks the transformer |
| SyncIterables.ExtendedIterable.constructor | src/index.ts:36-46 | a wrapper over a fresh, untouched handle |
| SyncIterables.ExtendedIterable.Map | src/index.ts:478-502 | no argument check: a MapIterator over the same handle with the unchecked callback |
| SyncIterables.ExtendedIterable.Filter | src/index.ts:320-348 | no argument check: a FilterIterator |
| SyncIterables.ExtendedIterable.FlatMap | src/index.ts:391-442 | no argument check: a FlatMapIterator |
| SyncIterables.ExtendedIterable.Take | src/index.ts:688-715 | no argument check: a TakeIterator with the limit as given |
| SyncIterables.ExtendedIterable.Drop | src/index.ts:241-277 | no argument check: a DropIterator with the limit as given |
| SyncIterables.ExtendedIterable.Slice | src/index.ts:607-646 | no argument check: `start ?? 0` as the start, with the end as given |
| SyncIterables.ExtendedIterable.Concat | src/index.ts:181-227 | the other argument is kept unresolved |
| SyncIterables.ExtendedIterable.MapError | src/index.ts:516-547 | no argument check: an ErrorMappingIterator |
| SyncIterables.ExtendedIterable.AsArray | src/index.ts:94-124 | all transformed values, as ArrayAnswer tags them; the handle is never released or failed |
| SyncIterables.ExtendedIterable.At | src/index.ts:138-167 | AtFrom's value, as AtAnswer tags it; the handle is never released or failed |
| SyncIterables.ExtendedIterable.Every | src/index.ts:293-305 | EveryFrom's result with the unchecked callback, without release or failure |
| SyncIterables.ExtendedIterable.Some | src/index.ts:662-674 | SomeFrom's result with the unchecked callback, without release or failure |
| SyncIterables.ExtendedIterable.Find | src/index.ts:364-376 | FindFrom's result with the unchecked callback, without release or failure |
| SyncIterables.ExtendedIterable.ForEach | src/index.ts:455-464 | visits ForEachFrom's values and returns `undefined`, or its error |
| SyncIterables.ExtendedIterable.Reduce | src/index.ts:564-592 | ReduceCall's result with the unchecked callback; the empty reduce error without a seed |
| SyncIterables.ExtendedIterable.ReduceRemaining | src/index.ts:585-589 | the accumulation loop returns ReduceFrom's result |
| SyncIterables.AtAnswers | src/index.ts:138-167 | without errors, `at(n)` returns the n-th transformed value itself when it is truthy, and a promise of it when it is falsy; for a negative index or past the end, a promise of `undefined` |
| SyncIterables.UncheckedCallback | src/index.ts:293-305 | with a non-function callback, every, some, find and forEach give their usual answers on empty input, and throw the host's TypeError once a value reaches the callback |
| SyncIterables.UncheckedReducer | src/index.ts:564-592 | with a non-function callback, reduce still reports the empty reduce, returns a lone seed or value, and fails once the callback is called |
| Iterators.BaseIterator.constructor | src/iterators/base-iterator.ts:7-9 | wraps the given iterator |
| Iterators.BaseIterator.Next | src/iterators/base-iterator.ts:11-13 | forwards to the wrapped `next()` and returns its result unchanged |
| Iterators.BaseIterator.Return | src/iterators/base-iterator.ts:15-17 | `return(value)` releases the wrapped iterator when it can, and gives `{done: true, value}` |
| Iterators.BaseIterator.Throw | src/iterators/base-iterator.ts:19-24 | `throw(err)` forwards to the wrapped `throw()` when there is one; otherwise rethrows `err` |
| Iterators.NewFilterIterator | src/iterators/filter-iterator.ts:7-18 | a non-function callback is reported to `throw()`, and construction fails unless that completes |
| Iterators.FilterIterator.constructor | src/iterators/filter-iterator.ts:7-18 | index 0, nothing emitted |
| Iterators.FilterIterator.Next | src/iterators/filter-iterator.ts:20-48 | pulls until a value is kept (untransformed) or a callback error is routed to `throw()`; at exhaustion returns upstream's done result |
| Iterators.FilterIterator.ProcessResult | src/iterators/filter-iterator.ts:64-93 | the index is bumped for every value; a truthy answer keeps it; a callback error goes to `throw()` |
| Iterators.LimitRunEntries | src/iterators/take-iterator.ts:26-57 | one result per consumed entry, each counted as a value or as a routed error |
| Iterators.LimitWindow | src/iterators/take-iterator.ts:26-57 | without errors, TakeIterator yields exactly the first `limit` values, untransformed |
| Iterators.NewTakeIterator | src/iterators/take-iterator.ts:7-24 | 'Limit is not a number' / 'Limit must be a positive number' are reported to `throw()`; construction fails unless that completes, and then there is no limit |
| Iterators.TakeIterator.constructor | src/iterators/take-iterator.ts:7-24 | count 0, with the checked limit or none |
| Iterators.TakeIterator.Next | src/iterators/take-iterator.ts:26-57 | at the limit: done without pulling, releasing the upstream; upstream done is answered with `return(value)`, which releases it; a value is counted and passed on |

## Left out

- The asynchronous paths of every operation (`#asyncAsArray`, `#asyncAt`,
  `#asyncEvery`, `#asyncFind`, `#asyncForEach`, `#asyncReduce`,
  `#asyncSome`, `#asyncSkip`, `#asyncFilter`, `#asyncMap`, `#asyncNext`,
  `#asyncSkipAndGetFirst`, `#asyncGetNextValue`, and the `.then`/`.catch`
  chains). They are promise continuations and scheduler interleavings. The
  only trace of them is the Immediate/Deferred tag (`Answer`) that
  `src/index.ts` gives `asArray` and `at`.
- Host reflection in `resolveIterator` (`Symbol.iterator` probing,
  `instanceof GeneratorFunction`). The input shapes are a datatype
  (`Resolution.Input`), and a resolved handle is described by its
  behaviour.
- `[Symbol.iterator]`, `[Symbol.asyncIterator]` and the `async = true`
  marker. The accessors return the handle, and the marker is never read.
- The `debugger` statement in `src/iterators/filter-iterator.ts`. It has no
  effect on the result.
- Floating point numbers, `NaN` and number formatting. Numbers are
  integers. A non-integer count or index, and the truthiness of `NaN`, are
  not modelled.
- Handles' own `return()`/`throw()` behaviour beyond counting and the
  throw outcome: a release or failure does not stop a scripted handle.
- ExtendedIterables.ExtendedIterable.Map, ExtendedIterables.ExtendedIterable.Filter
  and the other combinators return the decorator object itself, not the
  new transformer-less `ExtendedIterable` that wraps it in the source. A
  chain is therefore not an object graph in the model: no decorator reads
  from another decorator. Chaining is stated instead over run functions.
  The results of one link become the pulls of the next, untransformed
  (`AsPulls`). Two chains are proved this way: `MapThenFilter` and
  `TakeThenMap`. Other combinations are not stated.
- Aliasing of `concat`'s argument with the wrapper's own handle. The
  model's `ConcatIterator` requires two distinct handles.
- The text of the TypeError a host raises when it calls a non-function
  (an unchecked callback in `src/index.ts`, or a callback left in place
  after a completing `throw()` in `src/iterators/filter-iterator.ts`). It
  is a stand-in constant, `JsValues.NotCallableError`.
- Non-number arguments to the unchecked `take`, `drop`, `slice` and `at`
  of `src/index.ts` (`take(undefined)`, `slice(0, null)`). These methods
  check nothing, so such an argument meets JavaScript's comparison
  coercions, which the model does not express. Their arguments are
  integers, as the declared `number` type says.
- An iterable object's own iterator, beyond the finite sequence of
  elements it yields (`JsValues.IterableObject`). A sub-iterator that
  throws part-way, never ends, or is shared with other code is not
  modelled. Neither is `Symbol.toStringTag` beyond its use in `String(v)`.
