# Dynamic method invokers and the virtual environment mock, in Dafny

This project models two pieces of Spring.NET's test support code.

**The dynamic method invokers** (`DynamicMethodTests.cs`). Spring.NET
generates, at run time, an invoker for a `MethodInfo`: an object whose
`Invoke(target, args)` unboxes each element of an `object[]`, calls the
method on the target, copies every `ref` and `out` parameter back into the
array and boxes the return value. The class `InstanceMethod` holds the
hand-written C# of what such invokers look like, for the methods of
`MethodTarget` and `RefOutTestObject`. `MethodTarget.DoItCaller` drives one
of them. The tests `TestInstanceMethods`, `TestStaticMethods` and
`TestRefOutMethods` state what the invokers must do.

Each invoker is a pure function from the target and the argument array to a
`Call`: the returned value or the exception, the target afterwards, and the
array afterwards. Casts and unboxing that fail become `InvalidCast`. Unboxing
`null` into an `int`, or calling a method on a null receiver or a null
string, becomes `NullReference`. A missing array element becomes
`IndexOutOfRange`. The steps run in C# evaluation order:

1. the target cast;
2. the argument reads and casts, left to right;
3. the null check on the receiver;
4. the method body;
5. the stores back into the array, one at a time.

An exception keeps whatever stores already completed. `int` arithmetic is
unchecked 32-bit arithmetic that wraps around.

The calling convention is also written down independently of any invoker
(`Invokers.WrittenBack`): every `ref` and `out` slot ends up holding the
parameter's final value, and every other slot keeps its value. Every
invoker, on the arrays it accepts, is proved to follow that convention,
except `InvokeWithRef` as written, which never completes (see
"## Findings"). The invokers with `ref` or
`out` parameters are proved against a direct call of their target method.
The in-only invokers are proved to leave the array as it was. The other
properties proved are:

- `out` slots are never read;
- state carried in the array accumulates across repeated calls;
- the test scenarios come out as the tests assert.

**The virtual environment mock** (`VirtualEnvironmentMock.cs`). Its
constructor normalises the path info and the application's virtual root.
The getters and the setter of `CurrentExecutionFilePath` are modelled too.
The two normalisations are proved idempotent, and their fixpoints are
characterised exactly. The application root is proved to keep the input's
interior piece, slashes inside it included.

Modules:

- `Wrappers`: `Option` and `Result`.
- `Values`: the boxed values the array can hold, the exceptions, and 32-bit
  wrap-around.
- `Text`: `ToUpper`, `TrimStart`, `TrimEnd` and `Trim`.
- `Targets`: the called methods.
- `Invokers`: the invokers and `DoItCaller`.
- `InvokerProperties`: lemmas relating the invokers to the targets and to
  the tests.
- `VirtualEnvironmentMock`: the mock.

## Model

| member | source | states |
|---|---|---|
| Values.Wrap | test/Spring/Spring.Core.Tests/Reflection/Dynamic/DynamicMethodTests.cs:262 | The 32-bit result of unchecked arithmetic is congruent to the exact result modulo 2^32, and equals it when it fits |
| Values.WrapAdd | test/Spring/Spring.Core.Tests/Reflection/Dynamic/DynamicMethodTests.cs:288 | Wrapping after each of two additions is the same as wrapping once after both |
| Text.ToUpper | test/Spring/Spring.Core.Tests/Reflection/Dynamic/DynamicMethodTests.cs:256 | Upper-casing keeps the length, maps each character independently, and leaves no lower-case ASCII letter |
| Text.ToUpperIdempotent | test/Spring/Spring.Core.Tests/Reflection/Dynamic/DynamicMethodTests.cs:261 | Upper-casing twice is upper-casing once |
| Text.LeadingCount | test/Spring/Spring.Web.Tests/TestSupport/VirtualEnvironmentMock.cs:23 | The count is exactly the length of the longest all-`c` prefix: everything before it is `c` and the next character is not |
| Text.TrailingCount | test/Spring/Spring.Web.Tests/TestSupport/VirtualEnvironmentMock.cs:24 | The count is exactly the length of the longest all-`c` suffix |
| Text.TrimStart | test/Spring/Spring.Web.Tests/TestSupport/VirtualEnvironmentMock.cs:23 | The result is a suffix of the input that does not start with `c`, and every character removed is `c` |
| Text.TrimEnd | test/Spring/Spring.Web.Tests/TestSupport/VirtualEnvironmentMock.cs:24 | The result is a prefix of the input that does not end with `c`, and every character removed is `c` |
| Text.Trim | test/Spring/Spring.Web.Tests/TestSupport/VirtualEnvironmentMock.cs:24 | The result is empty exactly when the input is all `c`; otherwise it neither starts nor ends with `c` |
| Text.TrimmedAll | test/Spring/Spring.Web.Tests/TestSupport/VirtualEnvironmentMock.cs:24 | `TrimStart` leaves only `c` exactly when the input is only `c` |
| Text.TrimKeepsCore | test/Spring/Spring.Web.Tests/TestSupport/VirtualEnvironmentMock.cs:24 | What `Trim` keeps is one contiguous piece of the input, and everything outside it is `c` |
| Text.TrimBracketed | test/Spring/Spring.Web.Tests/TestSupport/VirtualEnvironmentMock.cs:24 | A trimmed core wrapped in one `c` on each side trims back to the core |
| Targets.MethodReturningString | test/Spring/Spring.Core.Tests/Reflection/Dynamic/DynamicMethodTests.cs:246-249 | Returns the inventor's name, ignores the other three arguments, and throws NullReference exactly for a null inventor |
| Targets.MethodWithOutParameter | test/Spring/Spring.Core.Tests/Reflection/Dynamic/DynamicMethodTests.cs:254-257 | The out value is the input upper-cased character by character, and is a fixpoint of upper-casing; a null input throws NullReference |
| Targets.MethodWithRefParameter | test/Spring/Spring.Core.Tests/Reflection/Dynamic/DynamicMethodTests.cs:259-263 | The string comes back upper-cased character by character; the int comes back as its square modulo 2^32, exact when the square fits; a null string throws NullReference |
| Targets.DoIt | test/Spring/Spring.Core.Tests/Reflection/Dynamic/DynamicMethodTests.cs:285-289 | `reference` goes up by one and wraps from MaxInt32 to MinInt32; `output` is "done" |
| Targets.RemoveAt | test/Spring/Spring.Core.Tests/Reflection/Dynamic/DynamicMethodTests.cs:95-99 | Removes exactly the element at the index and shifts the rest down; an index out of range throws ArgumentOutOfRange |
| Targets.IsNullOrEmpty | test/Spring/Spring.Core.Tests/Reflection/Dynamic/DynamicMethodTests.cs:105-108 | True exactly for null and for the empty string |
| Invokers.StoreAll | test/Spring/Spring.Core.Tests/Reflection/Dynamic/DynamicMethodTests.cs:238-239 | Stores into the array one at a time: slots nobody writes keep their value, the last write to a slot wins, and it completes exactly when every index is in range |
| Invokers.FinishOne | test/Spring/Spring.Core.Tests/Reflection/Dynamic/DynamicMethodTests.cs:219-220 | One store followed by `return null` either updates the slot or throws IndexOutOfRange with the array untouched |
| Invokers.FinishTwo | test/Spring/Spring.Core.Tests/Reflection/Dynamic/DynamicMethodTests.cs:228-230 | When the second of two stores throws, the first has already happened |
| Invokers.WrittenBack | test/Spring/Spring.Core.Tests/Reflection/Dynamic/DynamicMethodTests.cs:233-241 | The convention stated on its own: `ref` and `out` slots get the final values, other slots keep theirs |
| Invokers.Invoke | test/Spring/Spring.Core.Tests/Reflection/Dynamic/DynamicMethodTests.cs:203-207 | Succeeds exactly when the target is a MethodTarget and the four slots have types int, DateTime, string[] (or null) and Inventor. Returns the inventor's name; never writes the array; any other non-null target is InvalidCast |
| Invokers.InvokeVoid | test/Spring/Spring.Core.Tests/Reflection/Dynamic/DynamicMethodTests.cs:209-213 | Succeeds with null exactly for a MethodTarget, whatever the array holds; a null target throws NullReference; the array is untouched |
| Invokers.WithOutResult | test/Spring/Spring.Core.Tests/Reflection/Dynamic/DynamicMethodTests.cs:217-218 | The call inside `InvokeWithOut` succeeds exactly for a MethodTarget and a string in `args[0]`, giving its upper-case form |
| Invokers.InvokeWithOut | test/Spring/Spring.Core.Tests/Reflection/Dynamic/DynamicMethodTests.cs:215-221 | Succeeds exactly when the target is a MethodTarget, the array has at least two slots and `args[0]` is a string. `args[1]` then receives the upper-cased `args[0]` and the other slots are unchanged; on failure nothing is written |
| Invokers.WithRefReads | test/Spring/Spring.Core.Tests/Reflection/Dynamic/DynamicMethodTests.cs:225-226 | The two ref variables read from the array: a string or null from `args[0]`, and an int from the slot the integer is read from |
| Invokers.WithRefCall | test/Spring/Spring.Core.Tests/Reflection/Dynamic/DynamicMethodTests.cs:225-227 | The reads plus the call succeed exactly when all the casts pass and the string is non-null; the results are the upper-cased string and the wrapped square |
| Invokers.WithRef | test/Spring/Spring.Core.Tests/Reflection/Dynamic/DynamicMethodTests.cs:223-231 | Both ref results are written back to `args[0]` and `args[1]`, and nothing is written when the call fails |
| Invokers.InvokeWithRef | test/Spring/Spring.Core.Tests/Reflection/Dynamic/DynamicMethodTests.cs:223-231 | As written it reads `args[0]` as both string and int, so every call throws and the array is never written |
| Invokers.InvokeWithRefCorrected | test/Spring/Spring.Core.Tests/Reflection/Dynamic/DynamicMethodTests.cs:223-231 | With the int read from `args[1]`: succeeds exactly for a MethodTarget, a string and an int. The string is upper-cased and the int squared in place, other slots unchanged; on failure nothing is written |
| Invokers.DoItCall | test/Spring/Spring.Core.Tests/Reflection/Dynamic/DynamicMethodTests.cs:235-237 | The reads plus the call of `DoIt` succeed exactly for a RefOutTestObject with ints in `args[0]` and `args[1]`; fewer than two slots throws IndexOutOfRange |
| Invokers.InvokeDoIt | test/Spring/Spring.Core.Tests/Reflection/Dynamic/DynamicMethodTests.cs:233-241 | Succeeds exactly when the target is a RefOutTestObject, the array has at least three slots and `args[0]`, `args[1]` are ints. Then `args[1]` goes up by one, `args[2]` becomes "done" and everything else is unchanged. A failing read or cast writes nothing; only a failing store (on an array of exactly two slots) leaves a write behind |
| Invokers.InvokeRemoveAt | test/Spring/Spring.Core.Tests/Reflection/Dynamic/DynamicMethodTests.cs:95-99 | Removes the element at the index from the list target; succeeds exactly for a list, an int index in range; never touches the array |
| Invokers.InvokeIsNullOrEmpty | test/Spring/Spring.Core.Tests/Reflection/Dynamic/DynamicMethodTests.cs:105-108 | Returns true exactly for null and for the empty string, and fails exactly when `args[0]` is missing or not a string |
| Invokers.Unpack | test/Spring/Spring.Core.Tests/Reflection/Dynamic/DynamicMethodTests.cs:273-274 | Succeeds exactly when slot 1 holds an int and slot 2 a string or null, giving those two values; an array shorter than two throws IndexOutOfRange |
| Invokers.InvokeDoItRepeatedly | test/Spring/Spring.Core.Tests/Reflection/Dynamic/DynamicMethodTests.cs:131-134 | Repeated calls keep the target and the array's length; a run of one or more calls succeeds exactly when its first call does |
| Invokers.DoItCaller | test/Spring/Spring.Core.Tests/Reflection/Dynamic/DynamicMethodTests.cs:265-275 | Going through the array and the invoker never fails, and gives exactly what calling `DoIt` directly gives |
| InvokerProperties.InvokeDoItFollowsConvention | test/Spring/Spring.Core.Tests/Reflection/Dynamic/DynamicMethodTests.cs:233-241 | A successful `InvokeDoIt` leaves the array as the write-back convention prescribes for `DoIt(in, ref, out)` |
| InvokerProperties.InvokeWithOutFollowsConvention | test/Spring/Spring.Core.Tests/Reflection/Dynamic/DynamicMethodTests.cs:215-221 | A successful `InvokeWithOut` leaves the array as the convention prescribes for `(in, out)` |
| InvokerProperties.InvokeWithRefCorrectedFollowsConvention | test/Spring/Spring.Core.Tests/Reflection/Dynamic/DynamicMethodTests.cs:223-231 | A successful corrected `InvokeWithRef` leaves the array as the convention prescribes for `(ref, ref)` |
| InvokerProperties.InOnlyInvokersFollowConvention | test/Spring/Spring.Core.Tests/Reflection/Dynamic/DynamicMethodTests.cs:203-213 | `Invoke`, `InvokeVoid`, `InvokeRemoveAt` and `InvokeIsNullOrEmpty` leave the array as the convention prescribes for parameters passed by value only, whether the call succeeds or throws |
| InvokerProperties.InvokeDoItIgnoresOutEntry | test/Spring/Spring.Core.Tests/Reflection/Dynamic/DynamicMethodTests.cs:233-241 | Whatever `args[2]` holds on entry, `InvokeDoIt` has the same outcome and, when it succeeds, the same array |
| InvokerProperties.InvokeWithOutIgnoresOutEntry | test/Spring/Spring.Core.Tests/Reflection/Dynamic/DynamicMethodTests.cs:215-221 | Whatever `args[1]` holds on entry, `InvokeWithOut` has the same outcome and, when it succeeds, the same array |
| InvokerProperties.InvokeDoItAccumulates | test/Spring/Spring.Core.Tests/Reflection/Dynamic/DynamicMethodTests.cs:130-136 | After `n` calls on the same array, the ref slot has gone up by `n` modulo 2^32, the out slot holds "done", and the rest is unchanged |
| InvokerProperties.AccumulatedStep | test/Spring/Spring.Core.Tests/Reflection/Dynamic/DynamicMethodTests.cs:134-136 | One call followed by `n - 1` calls accumulates like `n` calls |
| InvokerProperties.RepeatStep | test/Spring/Spring.Core.Tests/Reflection/Dynamic/DynamicMethodTests.cs:131-134 | A second call runs on the array the first call left |
| InvokerProperties.WrapStep | test/Spring/Spring.Core.Tests/Reflection/Dynamic/DynamicMethodTests.cs:288 | Adding one and then `n - 1` with wrap-around is adding `n` with wrap-around |
| InvokerProperties.InvokeDoItWritesBeforeThrowing | test/Spring/Spring.Core.Tests/Reflection/Dynamic/DynamicMethodTests.cs:235-239 | On a two-slot array the incremented reference is stored into `args[1]` before the store to `args[2]` throws IndexOutOfRange |
| InvokerProperties.ShortArraysFailEarlierFirst | test/Spring/Spring.Core.Tests/Reflection/Dynamic/DynamicMethodTests.cs:209-241 | On arrays too short for the invoker, a failing cast or null check throws before any missing slot is reached, `InvokeVoid` succeeds on an empty array, and only a call that reaches the missing slot throws IndexOutOfRange |
| InvokerProperties.InvokeIsNullOrEmptyIgnoresTarget | test/Spring/Spring.Core.Tests/Reflection/Dynamic/DynamicMethodTests.cs:105-108 | The static invoker's outcome does not depend on the target passed |
| InvokerProperties.InvokeVoidIgnoresArgs | test/Spring/Spring.Core.Tests/Reflection/Dynamic/DynamicMethodTests.cs:209-213 | `InvokeVoid` never reads the array |
| InvokerProperties.InvokeReturnsInventorName | test/Spring/Spring.Core.Tests/Reflection/Dynamic/DynamicMethodTests.cs:91-93 | For arguments of the right types, `Invoke` returns the inventor's name |
| InvokerProperties.UpperAleks | test/Spring/Spring.Core.Tests/Reflection/Dynamic/DynamicMethodTests.cs:119 | "aleks" upper-cases to "ALEKS" |
| InvokerProperties.RefScenario | test/Spring/Spring.Core.Tests/Reflection/Dynamic/DynamicMethodTests.cs:114-120 | `{"aleks", 5}` becomes `{"ALEKS", 25}` through the corrected ref invoker |
| InvokerProperties.RefScenarioAsWritten | test/Spring/Spring.Core.Tests/Reflection/Dynamic/DynamicMethodTests.cs:223-231 | The ref invoker as written throws InvalidCast on `{"aleks", 5}` and leaves the array as it was |
| InvokerProperties.OutScenario | test/Spring/Spring.Core.Tests/Reflection/Dynamic/DynamicMethodTests.cs:122-125 | `{"aleks", null}` gets "ALEKS" in slot 1 |
| InvokerProperties.DoItScenario | test/Spring/Spring.Core.Tests/Reflection/Dynamic/DynamicMethodTests.cs:127-136 | `{0, 1, null}` becomes `{0, 2, "done"}` after one call, and has 3 in slot 1 and "done" in slot 2 after a second |
| InvokerProperties.DoItCallerScenario | test/Spring/Spring.Core.Tests/Reflection/Dynamic/DynamicMethodTests.cs:138-142 | `DoItCaller(0, ref 0, out done)` yields 1 and "done" |
| InvokerProperties.RemoveAtScenario | test/Spring/Spring.Core.Tests/Reflection/Dynamic/DynamicMethodTests.cs:95-99 | Removing index 1 from `{"one", "two", "three"}` leaves two elements, the second being "three" |
| InvokerProperties.IsNullOrEmptyScenario | test/Spring/Spring.Core.Tests/Reflection/Dynamic/DynamicMethodTests.cs:105-108 | True for null and for "", false for "Ana Maria", with a null target |
| VirtualEnvironmentMock.NormalizePathInfo | test/Spring/Spring.Web.Tests/TestSupport/VirtualEnvironmentMock.cs:23 | Null and empty become empty. Anything else becomes one `/` followed by a suffix of the input, and what was dropped is all `/`. The result is always canonical |
| VirtualEnvironmentMock.NormalizeApplicationPath | test/Spring/Spring.Web.Tests/TestSupport/VirtualEnvironmentMock.cs:24-25 | The result is the input trimmed of `/` and bracketed by single slashes, or a lone `/` exactly when the input (null read as empty) is all slashes. The result is always canonical; the closing-slash test is an ordinal comparison (see "Left out") |
| VirtualEnvironmentMock.Bracketed | test/Spring/Spring.Web.Tests/TestSupport/VirtualEnvironmentMock.cs:24-25 | `"/" + core`, followed by `/` unless it already ends with one, is the core between two slashes, or a lone `/` exactly when the core is empty; either way canonical |
| VirtualEnvironmentMock.Create | test/Spring/Spring.Web.Tests/TestSupport/VirtualEnvironmentMock.cs:20-25 | A new mock satisfies the invariant, keeps the file path as given, and has no execution file path |
| VirtualEnvironmentMock.ApplicationVirtualPath | test/Spring/Spring.Web.Tests/TestSupport/VirtualEnvironmentMock.cs:34-37 | On a mock that keeps the invariant, the root read is canonical, and normalising it again changes nothing |
| VirtualEnvironmentMock.CurrentVirtualFilePath | test/Spring/Spring.Web.Tests/TestSupport/VirtualEnvironmentMock.cs:47-50 | The file path read is the start of the current virtual path (null reading as empty) |
| VirtualEnvironmentMock.CurrentExecutionFilePath | test/Spring/Spring.Web.Tests/TestSupport/VirtualEnvironmentMock.cs:52-55 | Storing back the value read leaves the mock as it was |
| VirtualEnvironmentMock.CurrentVirtualPath | test/Spring/Spring.Web.Tests/TestSupport/VirtualEnvironmentMock.cs:39-45 | Starts with the file path (null read as empty); the rest is canonical path info when the invariant holds |
| VirtualEnvironmentMock.SetCurrentExecutionFilePath | test/Spring/Spring.Web.Tests/TestSupport/VirtualEnvironmentMock.cs:52-56 | The getter returns the value set, every other property reads as before, and the invariant is kept |
| VirtualEnvironmentMock.PathInfoFixpoints | test/Spring/Spring.Web.Tests/TestSupport/VirtualEnvironmentMock.cs:23 | Normalisation leaves a path info unchanged exactly when it is canonical |
| VirtualEnvironmentMock.TrimStartOfCanonical | test/Spring/Spring.Web.Tests/TestSupport/VirtualEnvironmentMock.cs:23 | Removing leading slashes from one `/` followed by a non-slash gives that rest |
| VirtualEnvironmentMock.PathInfoIdempotent | test/Spring/Spring.Web.Tests/TestSupport/VirtualEnvironmentMock.cs:23 | Normalising path info twice is normalising it once |
| VirtualEnvironmentMock.PathInfoOfSlashes | test/Spring/Spring.Web.Tests/TestSupport/VirtualEnvironmentMock.cs:23 | Non-empty path info made only of slashes becomes `/` |
| VirtualEnvironmentMock.ApplicationPathFixpoints | test/Spring/Spring.Web.Tests/TestSupport/VirtualEnvironmentMock.cs:24-25 | Normalisation leaves an application root unchanged exactly when it is canonical |
| VirtualEnvironmentMock.ApplicationPathIdempotent | test/Spring/Spring.Web.Tests/TestSupport/VirtualEnvironmentMock.cs:24-25 | Normalising the application root twice is normalising it once |
| VirtualEnvironmentMock.ApplicationPathKeepsInterior | test/Spring/Spring.Web.Tests/TestSupport/VirtualEnvironmentMock.cs:24-25 | For input not all slashes, the root is `/` + a contiguous non-empty piece of the input + `/`, and everything outside the piece is `/` |
| VirtualEnvironmentMock.CurrentVirtualPathOfCreate | test/Spring/Spring.Web.Tests/TestSupport/VirtualEnvironmentMock.cs:39-45 | For a new mock, the current virtual path is the file path followed by the normalised path info, and just the file path when the path info was null or empty |
| VirtualEnvironmentMock.ApplicationVirtualPathOfCreate | test/Spring/Spring.Web.Tests/TestSupport/VirtualEnvironmentMock.cs:24-36 | A new mock's root, as the getter returns it, is the constructor argument normalised: `/` for null, empty or all slashes, otherwise the argument trimmed of slashes between one `/` on each side |
| VirtualEnvironmentMock.ExecutionFilePathSetGet | test/Spring/Spring.Web.Tests/TestSupport/VirtualEnvironmentMock.cs:52-56 | Setting twice keeps the last value, and is the same as setting once to it |

## Argument arrays of the wrong length

The invokers never check the length of `args`:

- an array that is too long is accepted, and the extra slots are ignored;
- an array that is too short throws `IndexOutOfRange` only if the invoker
  reaches a missing read or store; a failing cast, null check or method
  body throws first, and `InvokeVoid` never touches `args`. See
  `InvokerProperties.ShortArraysFailEarlierFirst`.

`InvokeDoIt` reads `args[1]` and `args[0]` but stores to `args[1]` and
`args[2]`. On a two-slot array every index read is therefore in range, and
when the casts and the receiver check pass the store to `args[1]` happens.
Only then does the store to `args[2]` throw, so the array is left changed. The model follows the code. See
`InvokerProperties.InvokeDoItWritesBeforeThrowing`.

The tests exercise invokers that are generated at run time. The model
applies the tests' arrays to the hand-written invokers of `InstanceMethod`,
which have the shape of the generated ones. It also applies them to the
same shape written for `ArrayList.RemoveAt` and
`StringUtils.IsNullOrEmpty`.

## Findings

| source | as written | input that shows it | evidently intended | confidence | as-written member | corrected member |
|---|---|---|---|---|---|---|
| test/Spring/Spring.Core.Tests/Reflection/Dynamic/DynamicMethodTests.cs:226 | `int refVar2 = (int) args[0];` reads the integer `ref` argument from the same slot as the string one | `InvokeWithRef(new MethodTarget(), {"aleks", 5})` throws InvalidCast: a string cannot be unboxed to `int`. No array makes both casts pass, so the invoker always throws | `(int) args[1]`, matching the store `args[1] = refVar2` and the test's `{"aleks", 5}` → `{"ALEKS", 25}` | high; not executed | Invokers.InvokeWithRef, InvokerProperties.RefScenarioAsWritten | Invokers.InvokeWithRefCorrected, InvokerProperties.RefScenario |

## Left out

- Generating IL for an invoker (`DynamicMethod.Create`), the reflection
  lookups (`GetMethod`) and any cache of invokers are not modelled. The
  model covers only the invokers' behaviour, in the shape `InstanceMethod`
  spells out.
- `Inventor.GetAge` and the fixture's `SetUp` are not modelled. They depend
  on the clock (`DateTime.Today`) and on a class that is not part of this
  model. `DateTime` values are opaque tick counts.
- The performance tests, `Elapsed` and `PrintTest` are not modelled. They
  measure wall-clock time and write to the debug output.
- `VirtualEnvironment.SetInstance`, `SetInitialized`, `Dispose` and the
  `autoInitialize` flag are not modelled. They register the mock as the
  process-wide ambient environment, and `VirtualEnvironment` is not part of
  this model. `Create` models the constructor's field assignments only.
- `MapPath` is not modelled. It reads the assembly's location on disk.
- `Text.ToUpper`: does not model culture-specific upper-casing. Only the
  ASCII letters `a`-`z` are mapped; every other character is unchanged.
- VirtualEnvironmentMock.NormalizeApplicationPath: models `EndsWith("/")`
  as an ordinal comparison of the last character. .NET's `EndsWith(string)`
  compares by the current culture and ignores characters of zero weight,
  such as the soft hyphen U+00AD. For input such as `"a/\u00AD"` the
  constructor keeps `"/a/\u00AD"` without a closing slash, while the model
  appends one. The model's promise that the root always ends with `/` holds
  only for input without such characters. Culture-aware collation is not
  modelled.
- A null `args` array is not modelled. It would throw `NullReference` at the
  first read.
- Array covariance is not modelled: storing into a `string[]` passed as
  `object[]` would throw `ArrayTypeMismatch`. `args` is always an
  `object[]`.
- The elements of a `string[]` argument cannot be null; the code never
  inspects them. A null `Inventor.Name` is not modelled either: `Invoke`
  would then return null, which the model's `Inventor` value cannot hold.
- `Inventor.Name` is treated as a plain field. The `Inventor` class is not
  part of this model.
- `ObjectScope` is not modelled. It is an enumeration that no modelled code
  uses.
- `ArrayList.RemoveAt` and `StringUtils.IsNullOrEmpty` are library code that
  is not part of this model. Their behaviour is modelled from what the tests
  assert and from their documented contracts.
