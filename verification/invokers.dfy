/** The hand-written invokers of `InstanceMethod` and the invokers the tests
    obtain for library methods, each as a pure function from the target and
    the argument array to the state after the call.

    Every invoker follows the C# evaluation order of its body: the cast of
    the target, the reads of `args[i]` with their casts (left to right), the
    null check on the receiver at the call, the body of the called method,
    and finally the stores of `ref`/`out` results into `args`, one at a
    time. An exception at any step ends the call with the array in whatever
    state the completed stores left it. */
module Invokers {
  import opened Wrappers
  import opened Values
  import Text
  import Targets

  /** How a parameter passes its argument: by value, `ref` or `out`. */
  datatype Mode = In | Ref | Out

  /** The state after an invocation: the returned value or the exception,
      the target object, and the argument array. */
  datatype Call = Call(ret: Result<Value, Fault>, target: Value, args: seq<Value>)

  /** One store `args[slot] = value`. */
  datatype Store = Store(slot: nat, value: Value)

  /** The array after a run of stores, and whether all of them completed. */
  datatype Stored = Stored(ok: bool, args: seq<Value>)

  /** Executes `stores` in order; a store to a missing index throws and
      leaves the earlier stores in place. */
  function StoreAll(args: seq<Value>, stores: seq<Store>): (r: Stored)
    ensures |r.args| == |args|
    ensures r.ok <==> forall k :: 0 <= k < |stores| ==> stores[k].slot < |args|
    ensures forall i :: 0 <= i < |args| && !StoresTo(stores, i) ==> r.args[i] == args[i]
    ensures r.ok ==> forall k :: 0 <= k < |stores| && !StoresTo(stores[k + 1..], stores[k].slot) ==>
                                 r.args[stores[k].slot] == stores[k].value
    decreases |stores|
  {
    if stores == [] then Stored(true, args)
    else if stores[0].slot < |args| then
      var r := StoreAll(args[stores[0].slot := stores[0].value], stores[1..]);
      assert forall k :: 1 <= k < |stores| ==> stores[k] == stores[1..][k - 1];
      assert forall k :: 1 <= k < |stores| ==> stores[k + 1..] == stores[1..][k..];
      assert stores[1..] == stores[0 + 1..];
      r
    else Stored(false, args)
  }

  /** Some store in `stores` writes slot `i`. */
  predicate StoresTo(stores: seq<Store>, i: nat) {
    exists k :: 0 <= k < |stores| && stores[k].slot == i
  }

  /** The end of a void invoker: the stores, then `return null`. */
  function Finish(target: Value, args: seq<Value>, stores: seq<Store>): Call {
    var st := StoreAll(args, stores);
    Call(if st.ok then Success(Null) else Failure(IndexOutOfRange), target, st.args)
  }

  /** One store: it either completes or throws with the array untouched. */
  lemma FinishOne(target: Value, args: seq<Value>, i: nat, v: Value)
    ensures Finish(target, args, [Store(i, v)])
              == if i < |args| then Call(Success(Null), target, args[i := v])
                 else Call(Failure(IndexOutOfRange), target, args)
  {
    assert [Store(i, v)][1..] == [];
    if i < |args| {
      assert StoreAll(args, [Store(i, v)]) == StoreAll(args[i := v], []);
    }
  }

  /** Two stores: a throw from the second leaves the first in place. */
  lemma FinishTwo(target: Value, args: seq<Value>, i: nat, v: Value, j: nat, w: Value)
    ensures Finish(target, args, [Store(i, v), Store(j, w)])
              == if i < |args| && j < |args| then Call(Success(Null), target, args[i := v][j := w])
                 else if i < |args| then Call(Failure(IndexOutOfRange), target, args[i := v])
                 else Call(Failure(IndexOutOfRange), target, args)
  {
    var stores := [Store(i, v), Store(j, w)];
    assert stores[1..] == [Store(j, w)];
    assert [Store(j, w)][1..] == [];
    if i < |args| {
      var first := args[i := v];
      assert StoreAll(args, stores) == StoreAll(first, [Store(j, w)]);
      if j < |args| {
        assert StoreAll(first, [Store(j, w)]) == StoreAll(first[j := w], []);
      }
    }
  }

  /** The calling convention the invokers implement, stated independently
      of any invoker: a method with parameter modes `modes` whose parameters
      end with the values `finals` leaves every `ref` and `out` slot holding
      its final value and every other slot as it was. */
  function WrittenBack(modes: seq<Mode>, args: seq<Value>, finals: seq<Value>): (r: seq<Value>)
    requires |finals| == |modes| <= |args|
    ensures |r| == |args|
    ensures forall i :: 0 <= i < |modes| && modes[i] != In ==> r[i] == finals[i]
    ensures forall i :: 0 <= i < |args| && (i >= |modes| || modes[i] == In) ==> r[i] == args[i]
  {
    seq(|args|, i requires 0 <= i < |args| =>
      if i < |modes| && modes[i] != In then finals[i] else args[i])
  }

  // ---------------------------------------------------------------------
  // InstanceMethod.Invoke: MethodReturningString(int, DateTime, string[], Inventor)

  function ReturningStringResult(target: Value, args: seq<Value>): Result<Value, Fault> {
    var t :- CastObject(target, target.MethodTarget?);
    var a0 :- At(args, 0);
    var arg1 :- CastInt(a0);
    var a1 :- At(args, 1);
    var arg2 :- CastDate(a1);
    var a2 :- At(args, 2);
    var arg3 :- CastStringArray(a2);
    var a3 :- At(args, 3);
    var arg4 :- CastInventor(a3);
    var receiver :- Receiver(t);
    var name :- Targets.MethodReturningString(arg1, arg2, arg3, arg4);
    Success(Str(name))
  }

  /** `InstanceMethod.Invoke`: calls `MethodReturningString` with the four
      slots cast to `int`, `DateTime`, `string[]` and `Inventor`, and
      returns the inventor's name. Nothing is written back. */
  function Invoke(target: Value, args: seq<Value>): (c: Call)
    ensures c.target == target && c.args == args
    ensures c.ret.Success? <==>
              && target.MethodTarget? && |args| >= 4
              && args[0].Int? && args[1].Date? && (args[2].Null? || args[2].StrArray?)
              && args[3].Inventor?
    ensures c.ret.Success? ==> c.ret.value == Str(args[3].name)
    ensures !target.Null? && !target.MethodTarget? ==> c.ret == Failure(InvalidCast)
  {
    Call(ReturningStringResult(target, args), target, args)
  }

  // ---------------------------------------------------------------------
  // InstanceMethod.InvokeVoid: MethodTarget.RemoveAt(5)

  /** `InstanceMethod.InvokeVoid`: calls the empty `MethodTarget.RemoveAt`
      with the constant 5, never reading `args`, and returns null. */
  function InvokeVoid(target: Value, args: seq<Value>): (c: Call)
    ensures c.target == target && c.args == args
    ensures c.ret.Success? <==> target.MethodTarget?
    ensures c.ret.Success? ==> c.ret.value == Null
    ensures target.Null? ==> c.ret == Failure(NullReference)
  {
    var r := (var t :- CastObject(target, target.MethodTarget?);
              var receiver :- Receiver(t);
              Success(Null));
    Call(r, target, args)
  }

  // ---------------------------------------------------------------------
  // InstanceMethod.InvokeWithOut: MethodWithOutParameter(string, out string)

  function WithOutResult(target: Value, args: seq<Value>): (r: Result<string, Fault>)
    ensures r.Success? <==> target.MethodTarget? && |args| >= 1 && args[0].Str?
    ensures r.Success? ==> r.value == Text.ToUpper(args[0].s)
  {
    var t :- CastObject(target, target.MethodTarget?);
    var a0 :- At(args, 0);
    var lower :- CastString(a0);
    var receiver :- Receiver(t);
    Targets.MethodWithOutParameter(lower)
  }

  /** `InstanceMethod.InvokeWithOut`: `args[1]` receives the upper-cased
      `args[0]`; whatever `args[1]` held before is never read. */
  function InvokeWithOut(target: Value, args: seq<Value>): (c: Call)
    ensures c.target == target && |c.args| == |args|
    ensures c.ret.Success? <==> target.MethodTarget? && |args| >= 2 && args[0].Str?
    ensures c.ret.Success? ==>
              && c.ret.value == Null
              && c.args[0] == args[0]
              && c.args[1] == Str(Text.ToUpper(args[0].s))
              && forall i :: 2 <= i < |args| ==> c.args[i] == args[i]
    ensures c.ret.Failure? ==> c.args == args
  {
    match WithOutResult(target, args)
    case Failure(e) => Call(Failure(e), target, args)
    case Success(upper) =>
      FinishOne(target, args, 1, Str(upper));
      Finish(target, args, [Store(1, Str(upper))])
  }

  // ---------------------------------------------------------------------
  // InstanceMethod.InvokeWithRef: MethodWithRefParameter(ref string, ref int)

  function WithRefReads(args: seq<Value>, intSlot: nat): (r: Result<(Option<string>, int32), Fault>)
    ensures r.Success? <==> |args| > intSlot && (args[0].Str? || args[0].Null?) && args[intSlot].Int?
    ensures r.Success? ==> r.value.0 == (if args[0].Str? then Some(args[0].s) else None)
    ensures r.Success? ==> r.value.1 == args[intSlot].i
  {
    var a0 :- At(args, 0);
    var refVar1 :- CastString(a0);
    var a1 :- At(args, intSlot);
    var refVar2 :- CastInt(a1);
    Success((refVar1, refVar2))
  }

  function WithRefCall(target: Value, args: seq<Value>, intSlot: nat): (r: Result<(string, int32), Fault>)
    ensures r.Success? <==> target.MethodTarget? && |args| > intSlot && args[0].Str? && args[intSlot].Int?
    ensures r.Success? ==> r.value.0 == Text.ToUpper(args[0].s)
    ensures r.Success? ==> r.value.1 == Wrap(args[intSlot].i as int * args[intSlot].i as int)
  {
    var vars :- WithRefReads(args, intSlot);
    var t :- CastObject(target, target.MethodTarget?);
    var receiver :- Receiver(t);
    Targets.MethodWithRefParameter(vars.0, vars.1)
  }

  /** The two `ref` parameters are read from `args[0]` and `args[intSlot]`
      and written back to `args[0]` and `args[1]`. */
  function WithRef(target: Value, args: seq<Value>, intSlot: nat): (c: Call)
    ensures c.target == target && |c.args| == |args|
    ensures c.ret.Success? <==> WithRefCall(target, args, intSlot).Success? && |args| >= 2
    ensures c.ret.Success? ==>
              && c.ret.value == Null
              && c.args == args[0 := Str(WithRefCall(target, args, intSlot).value.0)]
                               [1 := Int(WithRefCall(target, args, intSlot).value.1)]
    ensures WithRefCall(target, args, intSlot).Failure? ==> c.ret.Failure? && c.args == args
  {
    match WithRefCall(target, args, intSlot)
    case Failure(e) => Call(Failure(e), target, args)
    case Success(finals) =>
      FinishTwo(target, args, 0, Str(finals.0), 1, Int(finals.1));
      Finish(target, args, [Store(0, Str(finals.0)), Store(1, Int(finals.1))])
  }

  /** `InstanceMethod.InvokeWithRef` as written: both `ref` variables are
      read from `args[0]`, once cast to `string` and once unboxed to `int`.
      No value passes both casts, so the call always throws and the array is
      never written. */
  function InvokeWithRef(target: Value, args: seq<Value>): (c: Call)
    ensures c.target == target && c.args == args
    ensures c.ret.Failure?
  {
    WithRef(target, args, 0)
  }

  /** `InstanceMethod.InvokeWithRef` with the integer read from `args[1]`:
      `args[0]` is upper-cased and `args[1]` squared in place. */
  function InvokeWithRefCorrected(target: Value, args: seq<Value>): (c: Call)
    ensures c.target == target && |c.args| == |args|
    ensures c.ret.Success? <==>
              target.MethodTarget? && |args| >= 2 && args[0].Str? && args[1].Int?
    ensures c.ret.Success? ==>
              && c.ret.value == Null
              && c.args[0] == Str(Text.ToUpper(args[0].s))
              && c.args[1] == Int(Wrap(args[1].i as int * args[1].i as int))
              && forall i :: 2 <= i < |args| ==> c.args[i] == args[i]
    ensures c.ret.Failure? ==> c.args == args
  {
    WithRef(target, args, 1)
  }

  // ---------------------------------------------------------------------
  // InstanceMethod.InvokeDoIt: DoIt(int count, ref int reference, out string output)

  function DoItCall(target: Value, args: seq<Value>): (r: Result<(int32, string), Fault>)
    ensures r.Success? <==> target.RefOutTestObject? && |args| >= 2 && args[0].Int? && args[1].Int?
    ensures r.Success? ==> r.value == Targets.DoIt(args[0].i, args[1].i)
    ensures |args| < 2 ==> r == Failure(IndexOutOfRange)
  {
    var a1 :- At(args, 1);
    var reference :- CastInt(a1);
    var t :- CastObject(target, target.RefOutTestObject?);
    var count :- CastInt(args[0]);
    var receiver :- Receiver(t);
    Success(Targets.DoIt(count, reference))
  }

  /** `InstanceMethod.InvokeDoIt`: `args[1]` is incremented, `args[2]`
      receives `"done"`, `args[0]` is only read. The `ref` slot is read
      before anything else. On a two-slot array the store to `args[1]`
      happens before the store to `args[2]` throws. */
  function InvokeDoIt(target: Value, args: seq<Value>): (c: Call)
    ensures c.target == target && |c.args| == |args|
    ensures c.ret.Success? <==>
              target.RefOutTestObject? && |args| >= 3 && args[0].Int? && args[1].Int?
    ensures c.ret.Success? ==>
              && c.ret.value == Null
              && c.args[0] == args[0]
              && c.args[1] == Int(Wrap(args[1].i as int + 1))
              && c.args[2] == Str("done")
              && forall i :: 3 <= i < |args| ==> c.args[i] == args[i]
    ensures c.ret.Failure? && |args| != 2 ==> c.args == args
    ensures DoItCall(target, args).Failure? ==> c.ret.Failure? && c.args == args
    ensures |args| < 2 ==> c.ret == Failure(IndexOutOfRange)
  {
    match DoItCall(target, args)
    case Failure(e) => Call(Failure(e), target, args)
    case Success(finals) =>
      FinishTwo(target, args, 1, Int(finals.0), 2, Str(finals.1));
      Finish(target, args, [Store(1, Int(finals.0)), Store(2, Str(finals.1))])
  }

  // ---------------------------------------------------------------------
  // The invokers TestInstanceMethods and TestStaticMethods obtain for
  // ArrayList.RemoveAt and StringUtils.IsNullOrEmpty, in the shape of the
  // hand-written ones.

  function RemoveAtResult(target: Value, args: seq<Value>): Result<Value, Fault> {
    var t :- CastObject(target, target.ArrayList?);
    var a0 :- At(args, 0);
    var index :- CastInt(a0);
    var receiver :- Receiver(t);
    var elems :- Targets.RemoveAt(receiver.elems, index);
    Success(ArrayList(elems))
  }

  /** `((ArrayList) target).RemoveAt((int) args[0]); return null;`: the
      list target loses the element at the index; the array is untouched. */
  function InvokeRemoveAt(target: Value, args: seq<Value>): (c: Call)
    ensures c.args == args
    ensures c.ret.Success? <==>
              target.ArrayList? && |args| >= 1 && args[0].Int?
              && 0 <= args[0].i as int < |target.elems|
    ensures c.ret.Success? ==>
              && c.ret.value == Null
              && c.target.ArrayList?
              && |c.target.elems| == |target.elems| - 1
              && (forall j :: 0 <= j < args[0].i as int ==> c.target.elems[j] == target.elems[j])
              && (forall j :: args[0].i as int <= j < |c.target.elems| ==>
                               c.target.elems[j] == target.elems[j + 1])
    ensures c.ret.Failure? ==> c.target == target
  {
    match RemoveAtResult(target, args)
    case Failure(e) => Call(Failure(e), target, args)
    case Success(list) => Call(Success(Null), list, args)
  }

  /** `return StringUtils.IsNullOrEmpty((string) args[0]);`: a static call,
      so the target is never looked at. */
  function InvokeIsNullOrEmpty(target: Value, args: seq<Value>): (c: Call)
    ensures c.target == target && c.args == args
    ensures c.ret.Success? <==> |args| >= 1 && (args[0].Null? || args[0].Str?)
    ensures c.ret.Success? ==> c.ret.value == Bool(args[0] == Null || args[0] == Str(""))
  {
    var r := (var a0 :- At(args, 0);
              var s :- CastString(a0);
              Success(Bool(Targets.IsNullOrEmpty(s))));
    Call(r, target, args)
  }

  // ---------------------------------------------------------------------
  // MethodTarget.DoItCaller

  /** `MethodTarget.DoItCaller(count, ref reference, out output)`: packs
      `{count, reference, null}` into a fresh array, runs `InvokeDoIt` on a
      new `RefOutTestObject`, and unpacks slots 1 and 2. Its effect is that
      of calling `DoIt` directly. */
  function DoItCaller(count: int32, reference: int32): (r: Result<(int32, Option<string>), Fault>)
    ensures r.Success?
    ensures r.value.0 == Targets.DoIt(count, reference).0
    ensures r.value.1 == Some(Targets.DoIt(count, reference).1)
  {
    var c := InvokeDoIt(RefOutTestObject, [Int(count), Int(reference), Null]);
    match c.ret
    case Failure(e) => Failure(e)
    case Success(_) => Unpack(c.args)
  }

  /** `reference = (int) args[1]; output = (string) args[2];`: succeeds
      exactly when slot 1 holds an int and slot 2 a string or null. */
  function Unpack(args: seq<Value>): (r: Result<(int32, Option<string>), Fault>)
    ensures r.Success? <==> |args| >= 3 && args[1].Int? && (args[2].Null? || args[2].Str?)
    ensures r.Success? ==> r.value.0 == args[1].i
    ensures r.Success? ==> r.value.1 == (if args[2].Str? then Some(args[2].s) else None)
    ensures |args| < 2 ==> r == Failure(IndexOutOfRange)
  {
    var a1 :- At(args, 1);
    var refOut :- CastInt(a1);
    var a2 :- At(args, 2);
    var output :- CastString(a2);
    Success((refOut, output))
  }

  /** `n` successive invocations of `InvokeDoIt` on the same target, each
      on the array the previous one left; the first exception ends the run. */
  function InvokeDoItRepeatedly(target: Value, args: seq<Value>, n: nat): (c: Call)
    ensures c.target == target && |c.args| == |args|
    ensures n >= 1 ==> (c.ret.Success? <==> InvokeDoIt(target, args).ret.Success?)
    decreases n
  {
    if n == 0 then Call(Success(Null), target, args)
    else
      var c := InvokeDoIt(target, args);
      if c.ret.Failure? || n == 1 then c else InvokeDoItRepeatedly(target, c.args, n - 1)
  }
}
