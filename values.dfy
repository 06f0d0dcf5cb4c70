/** The dynamically typed values that flow through an ExtendedIterable chain,
    the results of a pull, and the shapes a function argument can take. */
module JsValues {

  datatype Option<+T> = None | Some(value: T)

  /** The constructor of an error object (its `name`). */
  datatype ErrorName = Error | TypeError | RangeError

  /** A JavaScript value, as far as the library distinguishes values: by
      truthiness, by being iterable (arrays, strings and objects with a
      `Symbol.iterator` method), by being an Error, and by `String(v)`.
      Numbers are integers here.  An iterable object (a Set, a Map, a
      generator object, a user-defined iterable) is described by its
      `Symbol.toStringTag` and the finite sequence of elements its iterator
      yields; an `Obj` has no `Symbol.iterator`. */
  datatype Value =
    | Undefined
    | Null
    | Bool(b: bool)
    | Num(n: int)
    | Str(s: string)
    | Arr(elements: seq<Value>)
    | Obj(id: nat)
    | IterableObject(tag: string, elements: seq<Value>)
    | Err(name: ErrorName, message: string)

  /** How a call ended: with a value, or by throwing one. */
  datatype Completion<+T> = Normal(value: T) | Thrown(error: Value)

  /** An iterator result: `{done: false, value}` or `{done: true, value}`. */
  datatype Step = Yield(value: Value) | Done(value: Value)

  /** A per-element transform attached to a wrapper. */
  type Transformer = Value -> Completion<Value>

  /** A combinator callback `(value, index) => result`. */
  type Callback = (Value, nat) -> Completion<Value>

  /** A reduce callback `(accumulator, value, index) => accumulator`. */
  type Reducer = (Value, Value, nat) -> Completion<Value>

  /** An argument that should be a function: either one, or some other value
      (Undefined when the argument is omitted). */
  datatype FnArg<F> = Function(f: F) | NotFunction(v: Value)

  /** `!!v` in JavaScript (NaN is not modelled). */
  predicate Truthy(v: Value) {
    match v
    case Undefined => false
    case Null => false
    case Bool(b) => b
    case Num(n) => n != 0
    case Str(s) => s != ""
    case _ => true
  }

  /** `transformer ? transformer(x) : x`. */
  function Apply(transformer: Option<Transformer>, x: Value): Completion<Value> {
    match transformer
    case None => Normal(x)
    case Some(f) => f(x)
  }

  /** A transform that never throws, so that values can be read off it. */
  ghost predicate NeverThrows(f: Value -> Completion<Value>) {
    forall v :: f(v).Normal?
  }

  ghost predicate TransformNeverThrows(transformer: Option<Transformer>) {
    transformer.None? || NeverThrows(transformer.value)
  }

  ghost predicate CallbackNeverThrows(callback: Callback) {
    forall v, i :: callback(v, i).Normal?
  }

  /** The value a never-throwing transform gives. */
  function Transformed(transformer: Option<Transformer>, x: Value): (y: Value)
    requires TransformNeverThrows(transformer)
    ensures Apply(transformer, x) == Normal(y)
    ensures transformer.None? ==> y == x
  {
    Apply(transformer, x).value
  }

  /** The elements of a value that has `Symbol.iterator`: an array yields its
      elements, a string its characters, an iterable object what its
      iterator yields. */
  function IteratedElements(v: Value): (r: Option<seq<Value>>)
    ensures v.Arr? ==> r == Some(v.elements)
    ensures v.Str? ==> r.Some? && |r.value| == |v.s|
    ensures v.Str? ==> forall i :: 0 <= i < |v.s| ==> r.value[i] == Str([v.s[i]])
    ensures v.IterableObject? ==> r == Some(v.elements)
    ensures r.Some? <==> v.Arr? || v.Str? || v.IterableObject?
  {
    match v
    case Arr(xs) => Some(xs)
    case Str(s) => Some(seq(|s|, i requires 0 <= i < |s| => Str([s[i]])))
    case IterableObject(_, xs) => Some(xs)
    case _ => None
  }

  function ErrorNameString(name: ErrorName): string {
    match name
    case Error => "Error"
    case TypeError => "TypeError"
    case RangeError => "RangeError"
  }

  function DigitString(d: nat): string
    requires d < 10
  {
    ["0123456789"[d]]
  }

  function NatString(n: nat): (s: string)
    ensures |s| >= 1
    decreases n
  {
    if n < 10 then DigitString(n) else NatString(n / 10) + DigitString(n % 10)
  }

  function Join(parts: seq<string>, separator: string): string {
    if parts == [] then ""
    else if |parts| == 1 then parts[0]
    else parts[0] + separator + Join(parts[1..], separator)
  }

  /** `String(v)`: arrays join their elements with commas, where undefined
      and null elements print as the empty string. */
  function ToString(v: Value): string
    decreases v
  {
    match v
    case Undefined => "undefined"
    case Null => "null"
    case Bool(b) => if b then "true" else "false"
    case Num(n) => if n < 0 then "-" + NatString(-n) else NatString(n)
    case Str(s) => s
    case Arr(xs) =>
      Join(seq(|xs|, i requires 0 <= i < |xs| =>
                 if xs[i].Undefined? || xs[i].Null? then "" else ToString(xs[i])), ",")
    case Obj(_) => "[object Object]"
    case IterableObject(tag, _) => "[object " + tag + "]"
    case Err(name, message) =>
      if message == "" then ErrorNameString(name) else ErrorNameString(name) + ": " + message
  }

  /** `new TypeError(message)` and friends. */
  function TypeErrorOf(message: string): Value { Err(TypeError, message) }
  function RangeErrorOf(message: string): Value { Err(RangeError, message) }

  /** What a host throws when a non-function is called.  The exact text is
      chosen by the JavaScript engine; this constant stands for it. */
  const NotCallableError: Value := Err(TypeError, "callback is not a function")
}
