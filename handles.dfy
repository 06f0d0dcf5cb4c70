/** The pull handle every layer reads from, and the release/failure
    forwarding that the decorators inherit from BaseIterator. */
module Handles {
  import opened JsValues

  /** What an upstream `throw(err)` does, when the handle has one: rethrow
      `err` (a generator, or the usual hand-written iterator), or swallow it
      and report `{done: true, value: undefined}`. */
  datatype ThrowCapability = NoThrow | Rethrows | Completes

  /** The observable behaviour of a pull handle.  The k-th call of `next()`
      returns `script[k]` (a value, or a throw); once the script is used up
      every call returns `{done: true, value: doneValue}`. */
  datatype HandleSpec = HandleSpec(
    script: seq<Completion<Value>>,
    doneValue: Value,
    hasReturn: bool,
    throwCap: ThrowCapability)

  /** The array iterator `[...][Symbol.iterator]()`: no `return`, no `throw`. */
  function ArrayHandle(elements: seq<Value>): (h: HandleSpec)
    ensures |h.script| == |elements|
    ensures forall i :: 0 <= i < |elements| ==> h.script[i] == Normal(elements[i])
    ensures !h.hasReturn && h.throwCap == NoThrow && h.doneValue == Undefined
  {
    HandleSpec(seq(|elements|, i requires 0 <= i < |elements| => Normal(elements[i])), Undefined, false, NoThrow)
  }

  /** The iterator result a scripted pull gives. */
  function Lift(c: Completion<Value>): (r: Completion<Step>)
    ensures r.Normal? <==> c.Normal?
    ensures c.Normal? ==> r.value == Yield(c.value)
    ensures c.Thrown? ==> r.error == c.error
  {
    match c
    case Normal(v) => Normal(Yield(v))
    case Thrown(e) => Thrown(e)
  }

  /** A pull result that carries a value. */
  predicate IsYield(r: Completion<Step>) {
    r.Normal? && r.value.Yield?
  }

  /** Terminals ignore the value that comes with `done`; the pull of
      an exhausted handle is taken to be `{done: true, value: undefined}`. */
  function DoneIgnored(r: Completion<Step>): (d: Completion<Step>)
    ensures IsYield(d) == IsYield(r) && d.Thrown? == r.Thrown?
  {
    if r.Normal? && r.value.Done? then Normal(Done(Undefined)) else r
  }

  /** A pull of `s`: its first entry, or done once it is empty. */
  function PullOf(s: seq<Completion<Value>>): (r: Completion<Step>)
    ensures s == [] ==> r == Normal(Done(Undefined))
    ensures s != [] ==> r == Lift(s[0])
  {
    if s == [] then Normal(Done(Undefined)) else Lift(s[0])
  }

  /** What is left of `s` after one pull. */
  function Tail(s: seq<Completion<Value>>): (t: seq<Completion<Value>>)
    ensures s == [] ==> t == []
    ensures s != [] ==> t == s[1..]
  {
    if s == [] then [] else s[1..]
  }

  /** What `throw(err)` on a handle with the given capability yields. */
  function ThrowOutcome(cap: ThrowCapability, err: Value): (r: Completion<Step>)
    ensures cap == Completes <==> r == Normal(Done(Undefined))
    ensures cap != Completes <==> r == Thrown(err)
  {
    if cap == Completes then Normal(Done(Undefined)) else Thrown(err)
  }

  /** The number of upstream `throw()` calls that `n` routed errors cause. */
  function ThrowCalls(cap: ThrowCapability, n: nat): (calls: nat)
    ensures cap == NoThrow ==> calls == 0
    ensures cap != NoThrow ==> calls == n
  {
    if cap == NoThrow then 0 else n
  }

  /** A scripted pull handle.  Besides its cursor it counts how often it was
      pulled, released (`return`) and failed (`throw`). */
  class Source {
    const script: seq<Completion<Value>>
    const doneValue: Value
    const hasReturn: bool
    const throwCap: ThrowCapability
    var pos: nat
    var pulls: nat
    var returnCalls: nat
    var throwCalls: nat

    ghost predicate Valid()
      reads this
    {
      pos <= |script|
    }

    /** The script entries not yet pulled. */
    ghost function Rest(): seq<Completion<Value>>
      reads this
      requires Valid()
    {
      script[pos..]
    }

    predicate Exhausted()
      reads this
    {
      pos == |script|
    }

    constructor (spec: HandleSpec)
      ensures Valid()
      ensures script == spec.script && doneValue == spec.doneValue
      ensures hasReturn == spec.hasReturn && throwCap == spec.throwCap
      ensures pos == 0 && pulls == 0 && returnCalls == 0 && throwCalls == 0
    {
      script, doneValue, hasReturn, throwCap := spec.script, spec.doneValue, spec.hasReturn, spec.throwCap;
      pos, pulls, returnCalls, throwCalls := 0, 0, 0, 0;
    }

    /** `next()`: the next scripted result, or done once the script is used up. */
    method Next() returns (r: Completion<Step>)
      requires Valid()
      modifies this
      ensures Valid()
      ensures old(pos) < |script| ==> pos == old(pos) + 1 && r == Lift(script[old(pos)])
      ensures old(pos) == |script| ==> pos == old(pos) && r == Normal(Done(doneValue))
      ensures old(Rest()) != [] ==> r == Lift(old(Rest())[0]) && Rest() == old(Rest())[1..]
      ensures old(Rest()) == [] ==> Rest() == []
      ensures DoneIgnored(r) == PullOf(old(Rest())) && Rest() == Tail(old(Rest()))
      ensures pulls == old(pulls) + 1
      ensures returnCalls == old(returnCalls) && throwCalls == old(throwCalls)
    {
      pulls := pulls + 1;
      if pos < |script| {
        r := Lift(script[pos]);
        pos := pos + 1;
      } else {
        r := Normal(Done(doneValue));
      }
    }

    /** `return(value)`: counted; the script is not affected. */
    method Return(value: Value) returns (r: Step)
      requires hasReturn
      modifies this`returnCalls
      ensures returnCalls == old(returnCalls) + 1
      ensures r == Done(value)
    {
      returnCalls := returnCalls + 1;
      r := Done(value);
    }

    /** `throw(err)`: counted; rethrows or completes as the capability says. */
    method Throw(err: Value) returns (r: Completion<Step>)
      requires throwCap != NoThrow
      modifies this`throwCalls
      ensures throwCalls == old(throwCalls) + 1
      ensures r == ThrowOutcome(throwCap, err)
    {
      throwCalls := throwCalls + 1;
      r := ThrowOutcome(throwCap, err);
    }
  }

  /** `iterator.return?.()`: release the handle if it can be released. */
  method ReleaseIfPossible(up: Source)
    modifies up`returnCalls
    ensures up.returnCalls == old(up.returnCalls) + (if up.hasReturn then 1 else 0)
  {
    if up.hasReturn {
      var _ := up.Return(Undefined);
    }
  }

  /** `iterator.throw?.(err)`, with whatever it throws or returns discarded:
      the callers go on to throw `err` themselves. */
  method FailIfPossible(up: Source, err: Value)
    modifies up`throwCalls
    ensures up.throwCalls == old(up.throwCalls) + ThrowCalls(up.throwCap, 1)
  {
    if up.throwCap != NoThrow {
      var _ := up.Throw(err);
    }
  }

  /** BaseIterator.return() of src/extended-iterable.ts: forward to the
      upstream `return()` when there is one, else report done. */
  method BaseReturn(up: Source) returns (r: Step)
    modifies up`returnCalls
    ensures up.returnCalls == old(up.returnCalls) + (if up.hasReturn then 1 else 0)
    ensures r == Done(Undefined)
  {
    if up.hasReturn {
      r := up.Return(Undefined);
    } else {
      r := Done(Undefined);
    }
  }

  /** BaseIterator.throw(err): forward to the upstream `throw()` and return
      what it returns, or rethrow `err` when there is none. */
  method BaseThrow(up: Source, err: Value) returns (r: Completion<Step>)
    modifies up`throwCalls
    ensures up.throwCalls == old(up.throwCalls) + ThrowCalls(up.throwCap, 1)
    ensures r == ThrowOutcome(up.throwCap, err)
  {
    if up.throwCap != NoThrow {
      r := up.Throw(err);
    } else {
      r := Thrown(err);
    }
  }
}
