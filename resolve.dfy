/** `resolveIterator`: how an ExtendedIterable obtains its pull handle from
    whatever it was given. */
module Resolution {
  import opened JsValues
  import opened Handles

  /** What can be passed where an iterable is expected.  A handle is
      described by its behaviour (HandleSpec).
      - Plain(v): a value of the value domain; arrays, strings and
        iterable objects have `Symbol.iterator`, nothing else in it does.
        A plain iterable object stands for one whose iterator yields its
        elements and cannot be released or failed; an iterator that can is
        given as an Object.
      - Object(iteratorMethod, nextMethod): some other object; it may have
        a `[Symbol.iterator]()` method returning a handle, and it may have
        a `next` method, in which case it is a handle itself.
      - Function(generator): a function; a generator function when
        calling it gives a generator. */
  datatype Input =
    | Plain(v: Value)
    | Object(iteratorMethod: Option<HandleSpec>, nextMethod: Option<HandleSpec>)
    | Function(generator: Option<HandleSpec>)

  const NotIterableMessage: string := "Argument is not iterable"

  /** The handle an input resolves to, tried in order: `Symbol.iterator`,
      a generator function, an object with `next`; anything else throws a
      TypeError with `message`.  The first test starts with `iterator &&`,
      so the empty string, although a string, is not iterable here.  A
      value resolves exactly when it is an array or a non-empty string, to
      a handle that yields its elements (characters) one by one and cannot
      be released or failed. */
  function Resolve(input: Input, message: string): (r: Completion<HandleSpec>)
    ensures r.Thrown? ==> r.error == TypeErrorOf(message)
    ensures input.Plain? ==> (r.Normal? <==> input.v.Arr? || (input.v.Str? && input.v.s != "") || input.v.IterableObject?)
    ensures input.Plain? && input.v.Arr? ==> r == Normal(ArrayHandle(input.v.elements))
    ensures input.Plain? && input.v.IterableObject? ==> r == Normal(ArrayHandle(input.v.elements))
    ensures input.Plain? && input.v.Str? && r.Normal? ==>
      && |r.value.script| == |input.v.s|
      && (forall i :: 0 <= i < |input.v.s| ==> r.value.script[i] == Normal(Str([input.v.s[i]])))
      && !r.value.hasReturn && r.value.throwCap == NoThrow
    ensures input.Object? ==> (r.Normal? <==> input.iteratorMethod.Some? || input.nextMethod.Some?)
    ensures input.Object? && input.iteratorMethod.Some? ==> r == Normal(input.iteratorMethod.value)
    ensures input.Object? && input.iteratorMethod.None? && input.nextMethod.Some? ==> r == Normal(input.nextMethod.value)
    ensures input.Function? ==> (r.Normal? <==> input.generator.Some?)
    ensures input.Function? && input.generator.Some? ==> r == Normal(input.generator.value)
  {
    match input
    case Plain(v) =>
      if Truthy(v) && IteratedElements(v).Some? then Normal(ArrayHandle(IteratedElements(v).value))
      else Thrown(TypeErrorOf(message))
    case Object(iteratorMethod, nextMethod) =>
      if iteratorMethod.Some? then Normal(iteratorMethod.value)
      else if nextMethod.Some? then Normal(nextMethod.value)
      else Thrown(TypeErrorOf(message))
    case Function(generator) =>
      if generator.Some? then Normal(generator.value)
      else Thrown(TypeErrorOf(message))
  }
}
