/** Properties of the invokers: each one agrees with calling its target
    method directly under the `ref`/`out` write-back convention, `out`
    slots are never read, state carried in the array accumulates across
    calls, and the scenarios of `TestInstanceMethods`, `TestStaticMethods`
    and `TestRefOutMethods` come out as those tests assert. */
module InvokerProperties {
  import opened Wrappers
  import opened Values
  import Text
  import Targets
  import opened Invokers

  // ---------------------------------------------------------------------
  // Invoking equals calling directly, under the write-back convention

  /** On any array it accepts, `InvokeDoIt` leaves the array exactly as
      calling `DoIt(count, ref reference, out output)` directly and writing
      back its `ref` and `out` parameters would. */
  lemma InvokeDoItFollowsConvention(target: Value, args: seq<Value>)
    requires target.RefOutTestObject? && |args| >= 3 && args[0].Int? && args[1].Int?
    ensures var finals := Targets.DoIt(args[0].i, args[1].i);
      InvokeDoIt(target, args).args
        == WrittenBack([In, Ref, Out], args, [args[0], Int(finals.0), Str(finals.1)])
  {
  }

  /** On any array it accepts, `InvokeWithOut` leaves the array exactly as
      calling `MethodWithOutParameter(lower, out upper)` directly and
      writing back its `out` parameter would. */
  lemma InvokeWithOutFollowsConvention(target: Value, args: seq<Value>)
    requires target.MethodTarget? && |args| >= 2 && args[0].Str?
    ensures var upper := Targets.MethodWithOutParameter(Some(args[0].s));
      && upper.Success?
      && InvokeWithOut(target, args).args == WrittenBack([In, Out], args, [args[0], Str(upper.value)])
  {
  }

  /** On any array it accepts, the corrected `InvokeWithRef` leaves the
      array exactly as calling `MethodWithRefParameter(ref lowerUpper, ref
      square)` directly and writing back both `ref` parameters would. */
  lemma InvokeWithRefCorrectedFollowsConvention(target: Value, args: seq<Value>)
    requires target.MethodTarget? && |args| >= 2 && args[0].Str? && args[1].Int?
    ensures var finals := Targets.MethodWithRefParameter(Some(args[0].s), args[1].i);
      && finals.Success?
      && InvokeWithRefCorrected(target, args).args
           == WrittenBack([Ref, Ref], args, [Str(finals.value.0), Int(finals.value.1)])
  {
  }

  /** The invokers whose parameters are all passed by value leave the array
      as the convention prescribes for in-only parameters: untouched. */
  lemma InOnlyInvokersFollowConvention(target: Value, args: seq<Value>)
    ensures |args| >= 4 ==> Invoke(target, args).args == WrittenBack([In, In, In, In], args, args[..4])
    ensures InvokeVoid(target, args).args == WrittenBack([], args, [])
    ensures |args| >= 1 ==> InvokeRemoveAt(target, args).args == WrittenBack([In], args, args[..1])
    ensures |args| >= 1 ==> InvokeIsNullOrEmpty(target, args).args == WrittenBack([In], args, args[..1])
  {
  }

  // ---------------------------------------------------------------------
  // Out slots are write-only

  /** Whatever `args[2]` holds on entry, `InvokeDoIt` behaves the same: the
      `out` slot is never read. */
  lemma InvokeDoItIgnoresOutEntry(target: Value, args: seq<Value>, v: Value, w: Value)
    requires |args| >= 3
    ensures InvokeDoIt(target, args[2 := v]).ret == InvokeDoIt(target, args[2 := w]).ret
    ensures InvokeDoIt(target, args[2 := v]).ret.Success? ==>
              InvokeDoIt(target, args[2 := v]).args == InvokeDoIt(target, args[2 := w]).args
  {
  }

  /** Whatever `args[1]` holds on entry (null included), `InvokeWithOut`
      behaves the same. */
  lemma InvokeWithOutIgnoresOutEntry(target: Value, args: seq<Value>, v: Value, w: Value)
    requires |args| >= 2
    ensures InvokeWithOut(target, args[1 := v]).ret == InvokeWithOut(target, args[1 := w]).ret
    ensures InvokeWithOut(target, args[1 := v]).ret.Success? ==>
              InvokeWithOut(target, args[1 := v]).args == InvokeWithOut(target, args[1 := w]).args
  {
  }

  // ---------------------------------------------------------------------
  // State carried in the array across repeated calls

  /** `n >= 1` calls of `InvokeDoIt` on the same array all succeed, add
      `n` (modulo 2^32) to the `ref` slot and leave `"done"` in the `out`
      slot; the `in` slot and any extra slots stay as they were. */
  lemma {:induction false} InvokeDoItAccumulates(target: Value, args: seq<Value>, n: nat)
    requires target.RefOutTestObject? && |args| >= 3 && args[0].Int? && args[1].Int? && n >= 1
    ensures Accumulated(args, InvokeDoItRepeatedly(target, args, n), target, n)
    decreases n
  {
    var once := InvokeDoIt(target, args);
    if n > 1 {
      RepeatStep(target, args, n);
      InvokeDoItAccumulates(target, once.args, n - 1);
      AccumulatedStep(args, once, InvokeDoItRepeatedly(target, once.args, n - 1), target, n);
    }
  }

  /** `c` is what `n` successful calls of `DoIt` through the array leave:
      the `ref` slot advanced by `n` modulo 2^32, `"done"` in the `out`
      slot, every other slot as in `args`. */
  predicate Accumulated(args: seq<Value>, c: Call, target: Value, n: nat)
    requires |args| >= 3 && args[1].Int?
  {
    && c.ret == Success(Null) && c.target == target && |c.args| == |args|
    && c.args[0] == args[0]
    && c.args[1] == Int(Wrap(args[1].i as int + n))
    && c.args[2] == Str("done")
    && forall i :: 3 <= i < |args| ==> c.args[i] == args[i]
  }

  lemma AccumulatedStep(args: seq<Value>, once: Call, c: Call, target: Value, n: nat)
    requires |args| >= 3 && args[1].Int? && n > 1
    requires Accumulated(args, once, target, 1)
    requires Accumulated(once.args, c, target, n - 1)
    ensures Accumulated(args, c, target, n)
  {
    WrapStep(args[1].i as int, n);
  }

  lemma RepeatStep(target: Value, args: seq<Value>, n: nat)
    requires n > 1 && InvokeDoIt(target, args).ret.Success?
    ensures InvokeDoItRepeatedly(target, args, n)
              == InvokeDoItRepeatedly(target, InvokeDoIt(target, args).args, n - 1)
  {
  }

  lemma WrapStep(x: int, n: int)
    ensures Wrap(Wrap(x + 1) as int + (n - 1)) == Wrap(x + n)
  {
    WrapAdd(x + 1, n - 1);
    assert x + 1 + (n - 1) == x + n;
  }

  /** A two-slot array gets past every read of `InvokeDoIt`: the incremented
      `ref` value is stored into `args[1]`, and only then does the store
      into `args[2]` throw. The exception leaves the array changed. */
  lemma InvokeDoItWritesBeforeThrowing(count: int32, reference: int32)
    ensures InvokeDoIt(RefOutTestObject, [Int(count), Int(reference)])
              == Call(Failure(IndexOutOfRange), RefOutTestObject,
                      [Int(count), Int(Wrap(reference as int + 1))])
  {
  }

  /** A short array throws IndexOutOfRange only when the invoker reaches a
      missing slot: a failing cast or null check throws first, and
      `InvokeVoid` never touches the array. */
  lemma ShortArraysFailEarlierFirst()
    ensures InvokeVoid(MethodTarget, []) == Call(Success(Null), MethodTarget, [])
    ensures InvokeWithOut(MethodTarget, [Null]).ret == Failure(NullReference)
    ensures InvokeWithOut(MethodTarget, [Int(3)]).ret == Failure(InvalidCast)
    ensures InvokeDoIt(MethodTarget, [Int(0), Int(1)]).ret == Failure(InvalidCast)
    ensures InvokeWithOut(MethodTarget, [Str("a")]).ret == Failure(IndexOutOfRange)
  {
  }

  // ---------------------------------------------------------------------
  // Static and void invokers

  /** The static invoker's outcome does not depend on the target passed. */
  lemma InvokeIsNullOrEmptyIgnoresTarget(t1: Value, t2: Value, args: seq<Value>)
    ensures InvokeIsNullOrEmpty(t1, args).ret == InvokeIsNullOrEmpty(t2, args).ret
    ensures InvokeIsNullOrEmpty(t1, args).args == InvokeIsNullOrEmpty(t2, args).args
  {
  }

  /** `InvokeVoid` never reads its argument array. */
  lemma InvokeVoidIgnoresArgs(target: Value, a: seq<Value>, b: seq<Value>)
    ensures InvokeVoid(target, a).ret == InvokeVoid(target, b).ret
  {
  }

  /** `Invoke` returns the inventor's name whatever the first three slots
      hold, provided each passes its cast. */
  lemma InvokeReturnsInventorName(name: string, count: int32, ticks: int, list: Value)
    requires list.Null? || list.StrArray?
    ensures Invoke(MethodTarget, [Int(count), Date(ticks), list, Inventor(name)]).ret
              == Success(Str(name))
  {
  }

  // ---------------------------------------------------------------------
  // The test scenarios

  lemma UpperAleks()
    ensures Text.ToUpper("aleks") == "ALEKS"
  {
  }

  /** `TestRefOutMethods`: `{"aleks", 5}` becomes `{"ALEKS", 25}` with the
      corrected `ref` invoker. */
  lemma RefScenario()
    ensures InvokeWithRefCorrected(MethodTarget, [Str("aleks"), Int(5)]).args
              == [Str("ALEKS"), Int(25)]
  {
    UpperAleks();
  }

  /** The invoker as written throws on the array of `TestRefOutMethods`
      (the string in `args[0]` fails the `int` unboxing) and leaves it
      untouched. */
  lemma RefScenarioAsWritten()
    ensures InvokeWithRef(MethodTarget, [Str("aleks"), Int(5)])
              == Call(Failure(InvalidCast), MethodTarget, [Str("aleks"), Int(5)])
  {
  }

  /** `TestRefOutMethods`: `{"aleks", null}` gets `"ALEKS"` in slot 1. */
  lemma OutScenario()
    ensures InvokeWithOut(MethodTarget, [Str("aleks"), Null]).args[1] == Str("ALEKS")
  {
    UpperAleks();
  }

  /** `TestRefOutMethods`: `{0, 1, null}` becomes `{0, 2, "done"}` after one
      call, and has 3 in slot 1 and `"done"` in slot 2 after a second. */
  lemma DoItScenario()
    ensures InvokeDoIt(RefOutTestObject, [Int(0), Int(1), Null]).args
              == [Int(0), Int(2), Str("done")]
    ensures InvokeDoItRepeatedly(RefOutTestObject, [Int(0), Int(1), Null], 2).args[1] == Int(3)
    ensures InvokeDoItRepeatedly(RefOutTestObject, [Int(0), Int(1), Null], 2).args[2] == Str("done")
  {
    var args := [Int(0), Int(1), Null];
    var c := InvokeDoIt(RefOutTestObject, args);
    assert c.args[1] == Int(2);
    assert c.args == [Int(0), Int(2), Str("done")];
    InvokeDoItAccumulates(RefOutTestObject, args, 2);
  }

  /** `TestRefOutMethods`: `DoItCaller(0, ref 0, out _)` yields 1 and
      `"done"`. */
  lemma DoItCallerScenario()
    ensures DoItCaller(0, 0) == Success((1, Some("done")))
  {
  }

  /** `TestInstanceMethods`: removing index 1 from `{"one", "two", "three"}`
      leaves two elements, the second being `"three"`. */
  lemma RemoveAtScenario()
    ensures var c := InvokeRemoveAt(ArrayList([Str("one"), Str("two"), Str("three")]), [Int(1)]);
      && c.target.ArrayList?
      && |c.target.elems| == 2
      && c.target.elems[1] == Str("three")
  {
  }

  /** `TestStaticMethods`: true for null and for the empty string, false for
      `"Ana Maria"`, with a null target. */
  lemma IsNullOrEmptyScenario()
    ensures InvokeIsNullOrEmpty(Null, [Null]).ret == Success(Bool(true))
    ensures InvokeIsNullOrEmpty(Null, [Str("")]).ret == Success(Bool(true))
    ensures InvokeIsNullOrEmpty(Null, [Str("Ana Maria")]).ret == Success(Bool(false))
  {
  }
}
