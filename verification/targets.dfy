/** The methods the invokers call: the members of `MethodTarget` and
    `RefOutTestObject`, and the two library calls the tests exercise through
    an invoker (`ArrayList.RemoveAt`, `StringUtils.IsNullOrEmpty`). A method
    with `ref`/`out` parameters returns their final values; a method that
    can throw returns a `Result`. */
module Targets {
  import opened Wrappers
  import opened Values
  import Text

  /** `MethodTarget.MethodReturningString`: the first three arguments are
      ignored; dereferencing a null inventor throws. */
  function MethodReturningString(arg1: int32, arg2: int, arg3: Option<seq<string>>,
                                 arg4: Option<string>): (r: Result<string, Fault>)
    ensures r.Success? <==> arg4.Some?
    ensures r.Success? ==> r.value == arg4.value
    ensures r.Failure? ==> r.error == NullReference
  {
    match arg4
    case Some(name) => Success(name)
    case None => Failure(NullReference)
  }

  /** `MethodTarget.MethodWithOutParameter(lower, out upper)`. */
  function MethodWithOutParameter(lower: Option<string>): (r: Result<string, Fault>)
    ensures r.Success? <==> lower.Some?
    ensures r.Success? ==> |r.value| == |lower.value|
    ensures r.Success? ==> forall i :: 0 <= i < |r.value| ==>
              r.value[i] == Text.UpperChar(lower.value[i])
    ensures r.Success? ==> Text.ToUpper(r.value) == r.value
    ensures r.Failure? ==> r.error == NullReference
  {
    match lower
    case Some(s) => Text.ToUpperIdempotent(s); Success(Text.ToUpper(s))
    case None => Failure(NullReference)
  }

  /** `MethodTarget.MethodWithRefParameter(ref lowerUpper, ref square)`:
      the final values of both `ref` parameters. The product wraps around
      as an unchecked 32-bit multiplication. */
  function MethodWithRefParameter(lowerUpper: Option<string>, square: int32)
    : (r: Result<(string, int32), Fault>)
    ensures r.Success? <==> lowerUpper.Some?
    ensures r.Success? ==> |r.value.0| == |lowerUpper.value|
    ensures r.Success? ==> forall i :: 0 <= i < |r.value.0| ==>
              r.value.0[i] == Text.UpperChar(lowerUpper.value[i])
    ensures r.Success? ==> (r.value.1 as int - square as int * square as int) % 0x1_0000_0000 == 0
    ensures r.Success? && square as int * square as int <= MaxInt32 ==>
              r.value.1 as int == square as int * square as int
    ensures r.Failure? ==> r.error == NullReference
  {
    match lowerUpper
    case Some(s) => Success((Text.ToUpper(s), Wrap(square as int * square as int)))
    case None => Failure(NullReference)
  }

  /** `RefOutTestObject.DoIt(count, ref reference, out output)`: the final
      `reference` and `output`. `reference++` wraps around at the top of
      the 32-bit range. */
  function DoIt(count: int32, reference: int32): (r: (int32, string))
    ensures reference as int < MaxInt32 ==> r.0 as int == reference as int + 1
    ensures reference as int == MaxInt32 ==> r.0 as int == MinInt32
    ensures r.1 == "done"
  {
    (Wrap(reference as int + 1), "done")
  }

  /** `ArrayList.RemoveAt(index)` on a list holding `elems`. */
  function RemoveAt(elems: seq<Value>, index: int32): (r: Result<seq<Value>, Fault>)
    ensures r.Success? <==> 0 <= index as int < |elems|
    ensures r.Failure? ==> r.error == ArgumentOutOfRange
    ensures r.Success? ==> |r.value| == |elems| - 1
    ensures r.Success? ==> forall j :: 0 <= j < index as int ==> r.value[j] == elems[j]
    ensures r.Success? ==> forall j :: index as int <= j < |r.value| ==> r.value[j] == elems[j + 1]
  {
    if 0 <= index as int < |elems| then
      Success(elems[..index as int] + elems[index as int + 1..])
    else
      Failure(ArgumentOutOfRange)
  }

  /** `StringUtils.IsNullOrEmpty(s)`. */
  function IsNullOrEmpty(s: Option<string>): (r: bool)
    ensures r <==> s == None || s == Some("")
  {
    match s
    case None => true
    case Some(t) => |t| == 0
  }
}
