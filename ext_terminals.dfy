/** The synchronous paths of the terminal operations of ExtendedIterable
    (asArray, at, every, some, find, forEach, reduce), as functions of the
    entries a handle has left to give.  Each terminal is a pair of mutually
    recursive functions: `XFrom(s, ...)` pulls the next entry of `s`, and
    `XAfter(r, s, ...)` acts on the pull result `r` with `s` still to come.
    The state carried along is what the source keeps in local variables;
    `index` is the number of values pulled so far, which is also the index
    the next callback receives. */
module ExtendedTerminals {
  import opened JsValues
  import opened Sequences
  import opened Handles
  import opened Arguments

  /** How a terminal operation ended: its result or the error it threw, how
      many times it called `next()`, and whether it released the handle
      (`return?.()`) or reported a failure to it (`throw?.(err)`). */
  datatype Outcome<T> = Outcome(result: Completion<T>, pulls: nat, released: bool, failed: bool)

  /** What a terminal's calls did to its handle, given the entries `rest`
      the handle had left before the call. */
  twostate predicate Drove<T>(up: Source, rest: seq<Completion<Value>>, new o: Outcome<T>)
    reads up
  {
    && up.pulls == old(up.pulls) + o.pulls
    && up.pos == old(up.pos) + Min(o.pulls, |rest|)
    && up.returnCalls == old(up.returnCalls) + (if o.released && up.hasReturn then 1 else 0)
    && up.throwCalls == old(up.throwCalls) + (if o.failed then ThrowCalls(up.throwCap, 1) else 0)
  }

  /** A measure that a pull never increases: the entries left, plus one
      while a pulled value is still to be handled. */
  function Pending(r: Completion<Step>, s: seq<Completion<Value>>): nat {
    |s| + (if IsYield(r) then 1 else 0)
  }

  /** A value pulled from a handle, as a terminal sees it through the wrapper's transform. */
  function Applied(transformer: Option<Transformer>, c: Completion<Value>): Completion<Value> {
    match c
    case Thrown(e) => Thrown(e)
    case Normal(x) => Apply(transformer, x)
  }

  /** The longest prefix of `ys` whose elements all satisfy `p`, where
      element k is examined together with index `from + k`. */
  function PrefixWhile(p: (Value, nat) -> bool, ys: seq<Value>, from: nat): (n: nat)
    ensures n <= |ys|
    ensures forall k :: 0 <= k < n ==> p(ys[k], from + k)
    ensures n < |ys| ==> !p(ys[n], from + n)
    decreases ys
  {
    if ys == [] then 0
    else if p(ys[0], from) then 1 + PrefixWhile(p, ys[1..], from + 1)
    else 0
  }

  /** `callback(transformer ? transformer(x) : x, index)`: the first
      error of the two calls, or the callback's answer. */
  function Judged(transformer: Option<Transformer>, callback: Callback, x: Value, index: nat): (r: Completion<Value>)
    ensures Apply(transformer, x).Thrown? ==> r == Apply(transformer, x)
    ensures Apply(transformer, x).Normal? ==> r == callback(Apply(transformer, x).value, index)
  {
    match Apply(transformer, x)
    case Thrown(e) => Thrown(e)
    case Normal(y) => callback(y, index)
  }

  /** The callback answered with a truthy value. */
  predicate Accepted(callback: Callback, v: Value, i: nat) {
    callback(v, i).Normal? && Truthy(callback(v, i).value)
  }

  function AcceptedBy(callback: Callback): (Value, nat) -> bool {
    (v: Value, i: nat) => Accepted(callback, v, i)
  }

  function RejectedBy(callback: Callback): (Value, nat) -> bool {
    (v: Value, i: nat) => !Accepted(callback, v, i)
  }

  // ---------------------------------------------------------------- asArray

  /** `asArray`: collect every transformed value; on exhaustion release the
      handle with the array and return it.  An error from `next()` or from
      the transform is reported to the handle's `throw()` and rethrown. */
  function AsArrayFrom(s: seq<Completion<Value>>, transformer: Option<Transformer>, acc: seq<Value>, index: nat): Outcome<seq<Value>>
    decreases |s|, 1
  {
    AsArrayAfter(PullOf(s), Tail(s), transformer, acc, index)
  }

  function AsArrayAfter(r: Completion<Step>, s: seq<Completion<Value>>, transformer: Option<Transformer>, acc: seq<Value>, index: nat): Outcome<seq<Value>>
    decreases Pending(r, s), 0
  {
    match r
    case Thrown(e) => Outcome(Thrown(e), index + 1, false, true)
    case Normal(Done(_)) => Outcome(Normal(acc), index + 1, true, false)
    case Normal(Yield(x)) =>
      match Apply(transformer, x)
      case Thrown(e) => Outcome(Thrown(e), index + 1, false, true)
      case Normal(y) => AsArrayFrom(s, transformer, acc + [y], index + 1)
  }

  function Appended(acc: seq<Value>, c: Completion<seq<Value>>): Completion<seq<Value>> {
    match c
    case Normal(vs) => Normal(acc + vs)
    case Thrown(e) => Thrown(e)
  }

  /** The array is the transformed entries, unless one of them is an error:
      then the first error is thrown and reported to the handle; otherwise
      the handle is released. */
  lemma {:induction false} AsArrayCollects(s: seq<Completion<Value>>, transformer: Option<Transformer>, acc: seq<Value>, index: nat)
    ensures var o := AsArrayFrom(s, transformer, acc, index);
      && o.result == Appended(acc, AllOrFirstError(Map((c: Completion<Value>) => Applied(transformer, c), s)))
      && o.released == o.result.Normal?
      && o.failed == o.result.Thrown?
    decreases s
  {
    var f := (c: Completion<Value>) => Applied(transformer, c);
    if s == [] {
      assert acc + [] == acc;
    } else {
      assert Map(f, s)[0] == Applied(transformer, s[0]);
      assert Map(f, s)[1..] == Map(f, s[1..]);
      match s[0]
      case Thrown(e) =>
      case Normal(x) =>
        match Apply(transformer, x)
        case Thrown(e) =>
        case Normal(y) =>
          AsArrayCollects(s[1..], transformer, acc + [y], index + 1);
          match AllOrFirstError(Map(f, s[1..]))
          case Thrown(e) =>
          case Normal(vs) =>
            assert (acc + [y]) + vs == acc + ([y] + vs);
    }
  }

  /** Without errors, asArray returns every transformed value, after one
      pull per entry and the final done pull, and releases the handle. */
  lemma {:induction false} AsArrayMeaning(s: seq<Completion<Value>>, transformer: Option<Transformer>, acc: seq<Value>, index: nat)
    requires AllNormal(s) && TransformNeverThrows(transformer)
    ensures AsArrayFrom(s, transformer, acc, index)
         == Outcome(Normal(acc + TransformAll(transformer, Values(s))), index + |s| + 1, true, false)
    decreases s
  {
    if s == [] {
      assert acc + [] == acc;
    } else {
      var y := Transformed(transformer, s[0].value);
      TransformAllCons(transformer, s);
      AsArrayMeaning(s[1..], transformer, acc + [y], index + 1);
      var rest := TransformAll(transformer, Values(s[1..]));
      assert (acc + [y]) + rest == acc + ([y] + rest);
    }
  }

  /** The transformed values of a script, one entry shorter at the front. */
  lemma TransformAllCons(transformer: Option<Transformer>, s: seq<Completion<Value>>)
    requires AllNormal(s) && s != [] && TransformNeverThrows(transformer)
    ensures AllNormal(s[1..])
    ensures TransformAll(transformer, Values(s))
         == [Transformed(transformer, s[0].value)] + TransformAll(transformer, Values(s[1..]))
  {
    AllNormalTail(s);
    var a := TransformAll(transformer, Values(s));
    var b := [Transformed(transformer, s[0].value)] + TransformAll(transformer, Values(s[1..]));
    forall i | 0 <= i < |a|
      ensures a[i] == b[i]
    {
      if i > 0 {
        assert s[1..][i - 1] == s[i];
      }
    }
  }

  // ---------------------------------------------------------------- at

  /** `at(index)`: the index is checked before the handle is touched. */
  function AtCall(s: seq<Completion<Value>>, transformer: Option<Transformer>, index: Value): Outcome<Value> {
    match CheckCount(index, "index")
    case Thrown(e) => Outcome(Thrown(e), 0, false, false)
    case Normal(n) => AtFrom(s, transformer, n, 0)
  }

  /** `at(n)`: walk to the value at position `n`, transform only that one,
      release the handle with it and return it; release the handle with
      `undefined` when the values run out first.  Errors from `next()` or
      from that transform are reported to `throw()` and rethrown.  A
      negative `n` never matches, so everything is pulled. */
  function AtFrom(s: seq<Completion<Value>>, transformer: Option<Transformer>, n: int, index: nat): Outcome<Value>
    decreases |s|, 1
  {
    AtAfter(PullOf(s), Tail(s), transformer, n, index)
  }

  function AtAfter(r: Completion<Step>, s: seq<Completion<Value>>, transformer: Option<Transformer>, n: int, index: nat): Outcome<Value>
    decreases Pending(r, s), 0
  {
    match r
    case Thrown(e) => Outcome(Thrown(e), index + 1, false, true)
    case Normal(Done(_)) => Outcome(Normal(Undefined), index + 1, true, false)
    case Normal(Yield(x)) =>
      if index == n then
        match Apply(transformer, x)
        case Thrown(e) => Outcome(Thrown(e), index + 1, false, true)
        case Normal(y) => Outcome(Normal(y), index + 1, true, false)
      else AtFrom(s, transformer, n, index + 1)
  }

  /** Entries up to position `n` are values. */
  ghost predicate NormalUpTo(s: seq<Completion<Value>>, n: nat) {
    forall k :: 0 <= k < |s| && k <= n ==> s[k].Normal?
  }

  /** The value at position `n` is the transformed n-th entry, found after
      n+1 pulls; a shorter input gives undefined after draining it.  Only
      the target value is transformed, so only its transform must succeed. */
  lemma {:induction false} AtMeaning(s: seq<Completion<Value>>, transformer: Option<Transformer>, n: nat, index: nat)
    requires index <= n && NormalUpTo(s, n - index)
    requires n - index < |s| ==> Apply(transformer, s[n - index].value).Normal?
    ensures AtFrom(s, transformer, n, index)
         == if n - index < |s| then Outcome(Normal(Apply(transformer, s[n - index].value).value), n + 1, true, false)
            else Outcome(Normal(Undefined), index + |s| + 1, true, false)
    decreases s
  {
    if s != [] && index < n {
      assert NormalUpTo(s[1..], n - (index + 1)) by {
        forall k | 0 <= k < |s[1..]| && k <= n - (index + 1) ensures s[1..][k].Normal? {
          assert s[1..][k] == s[k + 1];
        }
      }
      AtMeaning(s[1..], transformer, n, index + 1);
    }
  }

  /** A position that is never reached (a negative index) drains the
      handle and gives undefined. */
  lemma {:induction false} AtUnreached(s: seq<Completion<Value>>, transformer: Option<Transformer>, n: int, index: nat)
    requires n < index && AllNormal(s)
    ensures AtFrom(s, transformer, n, index) == Outcome(Normal(Undefined), index + |s| + 1, true, false)
    decreases s
  {
    if s != [] {
      AllNormalTail(s);
      AtUnreached(s[1..], transformer, n, index + 1);
    }
  }

  // ---------------------------------------------------------------- every

  /** `every(callback)` checks that the callback is a function before it
      touches the handle. */
  function EveryCall(s: seq<Completion<Value>>, transformer: Option<Transformer>, callback: FnArg<Callback>): Outcome<Value> {
    match CheckCallback(callback)
    case Thrown(e) => Outcome(Thrown(e), 0, false, false)
    case Normal(f) => EveryFrom(s, transformer, f, 0)
  }

  /** `every(callback)`: false at the first falsy answer, true on
      exhaustion; the handle is released either way.  A transform or
      callback error is reported to `throw()` and rethrown; an error from
      `next()` propagates unreported. */
  function EveryFrom(s: seq<Completion<Value>>, transformer: Option<Transformer>, callback: Callback, index: nat): Outcome<Value>
    decreases |s|, 1
  {
    EveryAfter(PullOf(s), Tail(s), transformer, callback, index)
  }

  function EveryAfter(r: Completion<Step>, s: seq<Completion<Value>>, transformer: Option<Transformer>, callback: Callback, index: nat): Outcome<Value>
    decreases Pending(r, s), 0
  {
    match r
    case Thrown(e) => Outcome(Thrown(e), index + 1, false, false)
    case Normal(Done(_)) => Outcome(Normal(Bool(true)), index + 1, true, false)
    case Normal(Yield(x)) =>
      match Judged(transformer, callback, x, index)
      case Thrown(e) => Outcome(Thrown(e), index + 1, false, true)
      case Normal(v) =>
        if Truthy(v) then EveryFrom(s, transformer, callback, index + 1)
        else Outcome(Normal(Bool(false)), index + 1, true, false)
  }

  /** Without errors, every answers whether the callback accepts all
      transformed values; it stops pulling right after the first rejected
      one, and releases the handle. */
  lemma {:induction false} EveryMeaning(s: seq<Completion<Value>>, transformer: Option<Transformer>, callback: Callback, index: nat)
    requires AllNormal(s) && TransformNeverThrows(transformer) && CallbackNeverThrows(callback)
    ensures var n := PrefixWhile(AcceptedBy(callback), TransformAll(transformer, Values(s)), index);
      EveryFrom(s, transformer, callback, index) == Outcome(Normal(Bool(n == |s|)), index + n + 1, true, false)
    decreases s
  {
    if s != [] {
      var y := Transformed(transformer, s[0].value);
      TransformAllCons(transformer, s);
      assert callback(y, index).Normal?;
      if Accepted(callback, y, index) {
        EveryMeaning(s[1..], transformer, callback, index + 1);
      }
    }
  }

  // ---------------------------------------------------------------- some / find

  /** `some(callback)` checks that the callback is a function before it
      touches the handle. */
  function SomeCall(s: seq<Completion<Value>>, transformer: Option<Transformer>, callback: FnArg<Callback>): Outcome<Value> {
    match CheckCallback(callback)
    case Thrown(e) => Outcome(Thrown(e), 0, false, false)
    case Normal(f) => SomeFrom(s, transformer, f, 0)
  }

  /** `some(callback)`: true at the first truthy answer, after releasing
      the handle; false on exhaustion, without releasing it.  Errors
      propagate without being reported. */
  function SomeFrom(s: seq<Completion<Value>>, transformer: Option<Transformer>, callback: Callback, index: nat): Outcome<Value>
    decreases |s|, 1
  {
    SomeAfter(PullOf(s), Tail(s), transformer, callback, index)
  }

  function SomeAfter(r: Completion<Step>, s: seq<Completion<Value>>, transformer: Option<Transformer>, callback: Callback, index: nat): Outcome<Value>
    decreases Pending(r, s), 0
  {
    match r
    case Thrown(e) => Outcome(Thrown(e), index + 1, false, false)
    case Normal(Done(_)) => Outcome(Normal(Bool(false)), index + 1, false, false)
    case Normal(Yield(x)) =>
      match Apply(transformer, x)
      case Thrown(e) => Outcome(Thrown(e), index + 1, false, false)
      case Normal(y) =>
        match callback(y, index)
        case Thrown(e) => Outcome(Thrown(e), index + 1, false, false)
        case Normal(v) =>
          if Truthy(v) then Outcome(Normal(Bool(true)), index + 1, true, false)
          else SomeFrom(s, transformer, callback, index + 1)
  }

  /** Without errors, some answers whether the callback accepts any
      transformed value, stopping right after the first accepted one; the
      handle is released exactly when one was found. */
  lemma {:induction false} SomeMeaning(s: seq<Completion<Value>>, transformer: Option<Transformer>, callback: Callback, index: nat)
    requires AllNormal(s) && TransformNeverThrows(transformer) && CallbackNeverThrows(callback)
    ensures var n := PrefixWhile(RejectedBy(callback), TransformAll(transformer, Values(s)), index);
      SomeFrom(s, transformer, callback, index) == Outcome(Normal(Bool(n < |s|)), index + n + 1, n < |s|, false)
    decreases s
  {
    if s != [] {
      var y := Transformed(transformer, s[0].value);
      TransformAllCons(transformer, s);
      assert callback(y, index).Normal?;
      if !Accepted(callback, y, index) {
        SomeMeaning(s[1..], transformer, callback, index + 1);
      }
    }
  }

  /** `find(callback)` checks that the callback is a function before it
      touches the handle. */
  function FindCall(s: seq<Completion<Value>>, transformer: Option<Transformer>, callback: FnArg<Callback>): Outcome<Value> {
    match CheckCallback(callback)
    case Thrown(e) => Outcome(Thrown(e), 0, false, false)
    case Normal(f) => FindFrom(s, transformer, f, 0)
  }

  /** `find(callback)`: the first transformed value the callback accepts,
      after releasing the handle; undefined on exhaustion, without releasing
      it.  Errors propagate without being reported. */
  function FindFrom(s: seq<Completion<Value>>, transformer: Option<Transformer>, callback: Callback, index: nat): Outcome<Value>
    decreases |s|, 1
  {
    FindAfter(PullOf(s), Tail(s), transformer, callback, index)
  }

  function FindAfter(r: Completion<Step>, s: seq<Completion<Value>>, transformer: Option<Transformer>, callback: Callback, index: nat): Outcome<Value>
    decreases Pending(r, s), 0
  {
    match r
    case Thrown(e) => Outcome(Thrown(e), index + 1, false, false)
    case Normal(Done(_)) => Outcome(Normal(Undefined), index + 1, false, false)
    case Normal(Yield(x)) =>
      match Apply(transformer, x)
      case Thrown(e) => Outcome(Thrown(e), index + 1, false, false)
      case Normal(y) =>
        match callback(y, index)
        case Thrown(e) => Outcome(Thrown(e), index + 1, false, false)
        case Normal(v) =>
          if Truthy(v) then Outcome(Normal(y), index + 1, true, false)
          else FindFrom(s, transformer, callback, index + 1)
  }

  /** Without errors, find returns the first accepted transformed value, or
      undefined when there is none. */
  lemma {:induction false} FindMeaning(s: seq<Completion<Value>>, transformer: Option<Transformer>, callback: Callback, index: nat)
    requires AllNormal(s) && TransformNeverThrows(transformer) && CallbackNeverThrows(callback)
    ensures var ys := TransformAll(transformer, Values(s));
      var n := PrefixWhile(RejectedBy(callback), ys, index);
      FindFrom(s, transformer, callback, index)
        == Outcome(Normal(if n < |s| then ys[n] else Undefined), index + n + 1, n < |s|, false)
    decreases s
  {
    if s != [] {
      var y := Transformed(transformer, s[0].value);
      TransformAllCons(transformer, s);
      assert callback(y, index).Normal?;
      if !Accepted(callback, y, index) {
        FindMeaning(s[1..], transformer, callback, index + 1);
      }
    }
  }

  // ---------------------------------------------------------------- forEach

  /** `forEach(callback)` checks that the callback is a function before it
      touches the handle. */
  function ForEachCall(s: seq<Completion<Value>>, transformer: Option<Transformer>, callback: FnArg<Callback>): Outcome<seq<Value>> {
    match CheckCallback(callback)
    case Thrown(e) => Outcome(Thrown(e), 0, false, false)
    case Normal(f) => ForEachFrom(s, transformer, f, [], 0)
  }

  /** `forEach(callback)`: call the callback on every transformed value, in
      order; `seen` lists the values it was given.  Errors propagate without
      being reported, and the handle is never released. */
  function ForEachFrom(s: seq<Completion<Value>>, transformer: Option<Transformer>, callback: Callback, seen: seq<Value>, index: nat): Outcome<seq<Value>>
    decreases |s|, 1
  {
    ForEachAfter(PullOf(s), Tail(s), transformer, callback, seen, index)
  }

  function ForEachAfter(r: Completion<Step>, s: seq<Completion<Value>>, transformer: Option<Transformer>, callback: Callback, seen: seq<Value>, index: nat): Outcome<seq<Value>>
    decreases Pending(r, s), 0
  {
    match r
    case Thrown(e) => Outcome(Thrown(e), index + 1, false, false)
    case Normal(Done(_)) => Outcome(Normal(seen), index + 1, false, false)
    case Normal(Yield(x)) =>
      match Apply(transformer, x)
      case Thrown(e) => Outcome(Thrown(e), index + 1, false, false)
      case Normal(y) =>
        match callback(y, index)
        case Thrown(e) => Outcome(Thrown(e), index + 1, false, false)
        case Normal(_) => ForEachFrom(s, transformer, callback, seen + [y], index + 1)
  }

  /** Without errors, the callback sees every transformed value in order,
      and the handle is pulled once per entry plus the final done pull. */
  lemma {:induction false} ForEachMeaning(s: seq<Completion<Value>>, transformer: Option<Transformer>, callback: Callback, seen: seq<Value>, index: nat)
    requires AllNormal(s) && TransformNeverThrows(transformer) && CallbackNeverThrows(callback)
    ensures ForEachFrom(s, transformer, callback, seen, index)
         == Outcome(Normal(seen + TransformAll(transformer, Values(s))), index + |s| + 1, false, false)
    decreases s
  {
    if s == [] {
      assert seen + [] == seen;
    } else {
      var y := Transformed(transformer, s[0].value);
      TransformAllCons(transformer, s);
      assert callback(y, index).Normal?;
      ForEachMeaning(s[1..], transformer, callback, seen + [y], index + 1);
      var rest := TransformAll(transformer, Values(s[1..]));
      assert (seen + [y]) + rest == seen + ([y] + rest);
    }
  }

  // ---------------------------------------------------------------- reduce

  const EmptyReduceMessage: string := "Reduce of empty iterable with no initial value"

  /** The loop of `reduce`: `acc = callback(acc, transformed value, index++)`
      until exhaustion.  Errors propagate without being reported, and the
      handle is never released. */
  function ReduceFrom(s: seq<Completion<Value>>, transformer: Option<Transformer>, callback: Reducer, acc: Value, index: nat): (o: Outcome<Value>)
    ensures o.pulls > index && !o.released && !o.failed
    decreases |s|, 1
  {
    ReduceAfter(PullOf(s), Tail(s), transformer, callback, acc, index)
  }

  function ReduceAfter(r: Completion<Step>, s: seq<Completion<Value>>, transformer: Option<Transformer>, callback: Reducer, acc: Value, index: nat): (o: Outcome<Value>)
    ensures o.pulls > index && !o.released && !o.failed
    decreases Pending(r, s), 0
  {
    match r
    case Thrown(e) => Outcome(Thrown(e), index + 1, false, false)
    case Normal(Done(_)) => Outcome(Normal(acc), index + 1, false, false)
    case Normal(Yield(x)) =>
      match Reduced(transformer, callback, acc, x, index)
      case Thrown(e) => Outcome(Thrown(e), index + 1, false, false)
      case Normal(a) => ReduceFrom(s, transformer, callback, a, index + 1)
  }

  /** `callback(accumulator, transformer ? transformer(x) : x, index)`: the
      first error of the two calls, or the new accumulator. */
  function Reduced(transformer: Option<Transformer>, callback: Reducer, acc: Value, x: Value, index: nat): (r: Completion<Value>)
    ensures Apply(transformer, x).Thrown? ==> r == Apply(transformer, x)
    ensures Apply(transformer, x).Normal? ==> r == callback(acc, Apply(transformer, x).value, index)
  {
    match Apply(transformer, x)
    case Thrown(e) => Thrown(e)
    case Normal(y) => callback(acc, y, index)
  }

  /** The seed of a `reduce` without an initial value: the first value,
      transformed, with the loop going on from index 1; an empty input
      throws a TypeError. */
  function ReduceSeed(r: Completion<Step>, s: seq<Completion<Value>>, transformer: Option<Transformer>, callback: Reducer): Outcome<Value> {
    match r
    case Thrown(e) => Outcome(Thrown(e), 1, false, false)
    case Normal(Done(_)) => Outcome(Thrown(TypeErrorOf(EmptyReduceMessage)), 1, false, false)
    case Normal(Yield(x)) =>
      match Apply(transformer, x)
      case Thrown(e) => Outcome(Thrown(e), 1, false, false)
      case Normal(y) => ReduceFrom(s, transformer, callback, y, 1)
  }

  /** `reduce(callback[, initial])`; `initial` is None when the call passes
      a single argument. */
  function ReduceCall(s: seq<Completion<Value>>, transformer: Option<Transformer>, callback: FnArg<Reducer>, initial: Option<Value>): Outcome<Value> {
    match CheckCallback(callback)
    case Thrown(e) => Outcome(Thrown(e), 0, false, false)
    case Normal(f) =>
      if initial.Some? then ReduceFrom(s, transformer, f, initial.value, 0)
      else ReduceSeed(PullOf(s), Tail(s), transformer, f)
  }

  ghost predicate ReducerNeverThrows(callback: Reducer) {
    forall a, v, i :: callback(a, v, i).Normal?
  }

  /** A never-throwing reducer as a plain folding function. */
  function Folding(callback: Reducer): (Value, Value, nat) -> Value {
    (a: Value, v: Value, i: nat) => if callback(a, v, i).Normal? then callback(a, v, i).value else Undefined
  }

  /** Without errors, the loop is a left fold of the transformed values,
      indices counted on from `index`. */
  lemma {:induction false} ReduceFolds(s: seq<Completion<Value>>, transformer: Option<Transformer>, callback: Reducer, acc: Value, index: nat)
    requires AllNormal(s) && TransformNeverThrows(transformer) && ReducerNeverThrows(callback)
    ensures ReduceFrom(s, transformer, callback, acc, index)
         == Outcome(Normal(FoldLeft(Folding(callback), acc, TransformAll(transformer, Values(s)), index)), index + |s| + 1, false, false)
    decreases s
  {
    if s != [] {
      var y := Transformed(transformer, s[0].value);
      TransformAllCons(transformer, s);
      assert callback(acc, y, index).Normal?;
      ReduceFolds(s[1..], transformer, callback, callback(acc, y, index).value, index + 1);
    }
  }

  /** Without errors, reduce folds from the initial value, or from the first
      value with the rest of them starting at index 1; only an empty input
      without an initial value throws. */
  lemma ReduceMeaning(s: seq<Completion<Value>>, transformer: Option<Transformer>, callback: Reducer, initial: Option<Value>)
    requires AllNormal(s) && TransformNeverThrows(transformer) && ReducerNeverThrows(callback)
    ensures var ys := TransformAll(transformer, Values(s));
      ReduceCall(s, transformer, FnArg.Function(callback), initial)
        == if initial.Some? then Outcome(Normal(FoldLeft(Folding(callback), initial.value, ys, 0)), |s| + 1, false, false)
           else if s == [] then Outcome(Thrown(TypeErrorOf(EmptyReduceMessage)), 1, false, false)
           else Outcome(Normal(FoldLeft(Folding(callback), ys[0], ys[1..], 1)), |s| + 1, false, false)
  {
    if initial.Some? {
      ReduceFolds(s, transformer, callback, initial.value, 0);
    } else if s != [] {
      TransformAllCons(transformer, s);
      ReduceFolds(s[1..], transformer, callback, Transformed(transformer, s[0].value), 1);
    }
  }
}
