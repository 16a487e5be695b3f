/** The loosely-typed values that travel through an `object[]` argument
    array, the 32-bit integers boxed inside them, and the casts the invokers
    apply to them. */
module Values {
  import opened Wrappers

  const MinInt32: int := -0x8000_0000
  const MaxInt32: int := 0x7fff_ffff

  /** `System.Int32`. */
  newtype int32 = x: int | -0x8000_0000 <= x < 0x8000_0000

  /** Two's-complement truncation of an unbounded integer to 32 bits: what an
      unchecked C# `int` operation produces. */
  function Wrap(x: int): (r: int32)
    ensures (r as int - x) % 0x1_0000_0000 == 0
    ensures MinInt32 <= x <= MaxInt32 ==> r as int == x
  {
    ((x + 0x8000_0000) % 0x1_0000_0000 - 0x8000_0000) as int32
  }

  /** Wrapping twice is wrapping once: an intermediate truncation never
      changes the final 32-bit result of a sum. */
  lemma WrapAdd(x: int, y: int)
    ensures Wrap(Wrap(x) as int + y) == Wrap(x + y)
  {
    var a := x - MinInt32;
    var q := a / 0x1_0000_0000;
    assert a == 0x1_0000_0000 * q + a % 0x1_0000_0000;
    assert Wrap(x) as int + y - MinInt32 == (x + y - MinInt32) - 0x1_0000_0000 * q;
    ModShift(x + y - MinInt32, q);
  }

  lemma ModShift(b: int, q: int)
    ensures (b - 0x1_0000_0000 * q) % 0x1_0000_0000 == b % 0x1_0000_0000
  {
    var r := b % 0x1_0000_0000;
    var d := b / 0x1_0000_0000;
    assert b - 0x1_0000_0000 * q == 0x1_0000_0000 * (d - q) + r;
  }

  /** What an `object` slot can hold in the scenarios being modelled.
      `Null` is the null reference; `Int`, `Bool` and `Date` are boxed value
      types; the remaining alternatives are reference objects. */
  datatype Value =
    | Null
    | Int(i: int32)
    | Bool(b: bool)
    | Date(ticks: int)
    | Str(s: string)
    | StrArray(items: seq<string>)
    | Inventor(name: string)
    | MethodTarget
    | RefOutTestObject
    | ArrayList(elems: seq<Value>)

  /** The exceptions the invokers can raise. */
  datatype Fault =
    | InvalidCast
    | NullReference
    | IndexOutOfRange
    | ArgumentOutOfRange

  /** Reading `args[i]`. */
  function At(args: seq<Value>, i: nat): Result<Value, Fault> {
    if i < |args| then Success(args[i]) else Failure(IndexOutOfRange)
  }

  /** Unboxing `(int) v`. */
  function CastInt(v: Value): Result<int32, Fault> {
    match v
    case Int(i) => Success(i)
    case Null => Failure(NullReference)
    case _ => Failure(InvalidCast)
  }

  /** Unboxing `(DateTime) v`. */
  function CastDate(v: Value): Result<int, Fault> {
    match v
    case Date(t) => Success(t)
    case Null => Failure(NullReference)
    case _ => Failure(InvalidCast)
  }

  /** Reference cast `(string) v`: null passes through. */
  function CastString(v: Value): Result<Option<string>, Fault> {
    match v
    case Str(s) => Success(Some(s))
    case Null => Success(None)
    case _ => Failure(InvalidCast)
  }

  /** Reference cast `(string[]) v`: null passes through. */
  function CastStringArray(v: Value): Result<Option<seq<string>>, Fault> {
    match v
    case StrArray(a) => Success(Some(a))
    case Null => Success(None)
    case _ => Failure(InvalidCast)
  }

  /** Reference cast `(Inventor) v`, keeping only the inventor's name. */
  function CastInventor(v: Value): Result<Option<string>, Fault> {
    match v
    case Inventor(n) => Success(Some(n))
    case Null => Success(None)
    case _ => Failure(InvalidCast)
  }

  /** Reference cast of an invocation target to a class the value may or
      may not be an instance of. */
  function CastObject(v: Value, isInstance: bool): Result<Value, Fault> {
    if v.Null? || isInstance then Success(v) else Failure(InvalidCast)
  }

  /** The null check an instance call performs on its receiver once its
      arguments have been evaluated. */
  function Receiver(v: Value): Result<Value, Fault> {
    if v.Null? then Failure(NullReference) else Success(v)
  }
}
