/** The argument checks ExtendedIterable performs before it touches its
    handle: callbacks and transformers must be functions, counts and
    indices non-negative numbers, and slice bounds non-negative numbers
    when given. */
module Arguments {
  import opened JsValues
  import opened Sequences

  const CallbackMessage: string := "Callback is not a function"
  const TransformerMessage: string := "Transformer must be a function"

  /** `typeof callback !== 'function'` throws a TypeError. */
  function CheckCallback<F>(callback: FnArg<F>): (r: Completion<F>)
    ensures r.Normal? <==> callback.Function?
    ensures r.Normal? ==> r.value == callback.f
    ensures r.Thrown? ==> r.error == TypeErrorOf(CallbackMessage)
  {
    match callback
    case Function(f) => Normal(f)
    case NotFunction(_) => Thrown(TypeErrorOf(CallbackMessage))
  }

  /** `transformer && typeof transformer !== 'function'`: a falsy argument
      (an omitted one in particular) means no transform; any other
      non-function is refused. */
  function CheckTransformer(transformer: FnArg<Transformer>): (r: Completion<Option<Transformer>>)
    ensures r.Thrown? <==> transformer.NotFunction? && Truthy(transformer.v)
    ensures r.Thrown? ==> r.error == TypeErrorOf(TransformerMessage)
    ensures r.Normal? ==> (r.value.Some? <==> transformer.Function?)
    ensures r.Normal? && transformer.Function? ==> r.value == Some(transformer.f)
  {
    match transformer
    case Function(f) => Normal(Some(f))
    case NotFunction(v) => if Truthy(v) then Thrown(TypeErrorOf(TransformerMessage)) else Normal(None)
  }

  /** `mapError(catchCallback)`: the same rule as for the transformer, with
      the callback's message. */
  function CheckCatchCallback(catchCallback: FnArg<Transformer>): (r: Completion<Option<Transformer>>)
    ensures r.Thrown? <==> catchCallback.NotFunction? && Truthy(catchCallback.v)
    ensures r.Thrown? ==> r.error == TypeErrorOf(CallbackMessage)
    ensures r.Normal? ==> (r.value.Some? <==> catchCallback.Function?)
    ensures r.Normal? && catchCallback.Function? ==> r.value == Some(catchCallback.f)
  {
    match catchCallback
    case Function(f) => Normal(Some(f))
    case NotFunction(v) => if Truthy(v) then Thrown(TypeErrorOf(CallbackMessage)) else Normal(None)
  }

  /** A count, limit or index: a TypeError `<name> is not a number` for a
      non-number, a RangeError `<name> must be a positive number` for a
      negative one; zero is accepted. */
  function CheckCount(arg: Value, name: string): (r: Completion<nat>)
    ensures r.Normal? <==> arg.Num? && arg.n >= 0
    ensures r.Normal? ==> r.value == arg.n
    ensures !arg.Num? ==> r == Thrown(TypeErrorOf(name + " is not a number"))
    ensures arg.Num? && arg.n < 0 ==> r == Thrown(RangeErrorOf(name + " must be a positive number"))
  {
    match arg
    case Num(n) => if n < 0 then Thrown(RangeErrorOf(name + " must be a positive number")) else Normal(n)
    case _ => Thrown(TypeErrorOf(name + " is not a number"))
  }

  /** A slice bound, where `undefined` means that it was left out. */
  function CheckBound(arg: Value, name: string): (r: Completion<Option<nat>>)
    ensures arg.Undefined? ==> r == Normal(None)
    ensures !arg.Undefined? ==> (r.Normal? <==> arg.Num? && arg.n >= 0)
    ensures !arg.Undefined? && r.Normal? ==> r.value == Some(arg.n)
    ensures !arg.Undefined? && r.Thrown? ==> r == Thrown(CheckCount(arg, name).error)
  {
    if arg.Undefined? then Normal(None)
    else match CheckCount(arg, name)
      case Normal(n) => Normal(Some(n))
      case Thrown(e) => Thrown(e)
  }

  /** What `slice(start, end)` builds once its bounds are checked: an empty
      generator when the end is given and does not lie past the start, or a
      window from `start ?? 0` to the end. */
  datatype SliceWindow = EmptyWindow | Window(start: nat, end: Option<nat>)

  function CheckSlice(start: Value, end: Value): (r: Completion<SliceWindow>)
    ensures CheckBound(start, "Start").Thrown? ==> r == Thrown(CheckBound(start, "Start").error)
    ensures CheckBound(start, "Start").Normal? && CheckBound(end, "End").Thrown?
            ==> r == Thrown(CheckBound(end, "End").error)
    ensures r.Normal? <==> CheckBound(start, "Start").Normal? && CheckBound(end, "End").Normal?
    ensures r.Normal? ==>
              var s := CheckBound(start, "Start").value;
              var e := CheckBound(end, "End").value;
              var startIndex := if s.Some? then s.value else 0;
              && (r.value.EmptyWindow? <==> e.Some? && startIndex >= e.value)
              && (r.value.Window? ==> r.value == Window(startIndex, e))
  {
    match CheckBound(start, "Start")
    case Thrown(e) => Thrown(e)
    case Normal(s) =>
      match CheckBound(end, "End")
      case Thrown(e) => Thrown(e)
      case Normal(e) =>
        var startIndex := if s.Some? then s.value else 0;
        if e.Some? && startIndex >= e.value then Normal(EmptyWindow)
        else Normal(Window(startIndex, e))
  }

  /** Whichever window the check picks, it selects `xs.slice(start, end)`
      of any input: the empty generator stands for an empty slice. */
  lemma SliceWindowSelects(start: Value, end: Value, xs: seq<Value>)
    requires CheckSlice(start, end).Normal?
    ensures var s := CheckBound(start, "Start").value;
      var startIndex := if s.Some? then s.value else 0;
      Slice(xs, startIndex, CheckBound(end, "End").value)
        == match CheckSlice(start, end).value
           case EmptyWindow => []
           case Window(a, b) => Slice(xs, a, b)
  {
  }
}
