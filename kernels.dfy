/**
 * Kernel arguments and launches in clwrap.h: setArg binds one argument slot
 * under CHECK, the setArgs overloads for one to six arguments bind slots
 * 0, 1, ... in that order, and run enqueues a one-dimensional launch with
 * work-group size 256 and, when given a TimeCounter, waits for the queue and
 * ticks the counter.
 *
 * A kernel is a value: the sizes of its parameters, the bytes bound to its
 * slots so far, the slots clSetKernelArg was called on, in order, and the
 * failures the runtime reports for a slot whatever the argument (an invalid
 * kernel, exhausted resources). Otherwise the runtime answers clSetKernelArg
 * as section 5.7.2 of the OpenCL 1.2 specification says for by-value
 * arguments: an index beyond the kernel's parameters is CL_INVALID_ARG_INDEX,
 * a size other than the parameter's is CL_INVALID_ARG_SIZE. Enqueue and
 * finish statuses are inputs.
 */
module Kernels {
  import opened Outcomes
  import opened OpenCl
  import opened UInt64
  import opened Timing

  /** `size_t groupSize = 256` in run. */
  const GROUP_SIZE: nat := 256

  /** The setArgs overloads take one to six arguments. */
  const MAX_ARGS: nat := 6

  /** An argument as setArg passes it: sizeof(value) bytes at &value. */
  datatype Arg = Arg(bytes: seq<bv8>)

  datatype Kernel = Kernel(paramSizes: seq<nat>, bound: map<nat, seq<bv8>>, calls: seq<nat>,
                           runtimeStatus: map<nat, int>)

  /** The status the runtime reports for any call on slot pos before looking
      at the argument: CL_SUCCESS unless the kernel lists a failure there. */
  function SlotStatus(k: Kernel, pos: nat): int {
    if pos in k.runtimeStatus then k.runtimeStatus[pos] else CL_SUCCESS
  }

  /** One enqueued launch: the kernel as its arguments stood, the global work
      size and the work-group size. */
  datatype Launch = Launch(kernel: Kernel, workSize: nat, groupSize: nat)

  /** The status clSetKernelArg returns for binding arg to slot pos. */
  function ArgStatus(k: Kernel, pos: nat, arg: Arg): (status: int)
    ensures SlotStatus(k, pos) != CL_SUCCESS ==> status == SlotStatus(k, pos)
    ensures status == CL_SUCCESS <==>
              SlotStatus(k, pos) == CL_SUCCESS && pos < |k.paramSizes| && |arg.bytes| == k.paramSizes[pos]
  {
    if SlotStatus(k, pos) != CL_SUCCESS then SlotStatus(k, pos)
    else if pos >= |k.paramSizes| then CL_INVALID_ARG_INDEX
    else if |arg.bytes| != k.paramSizes[pos] then CL_INVALID_ARG_SIZE
    else CL_SUCCESS
  }

  /** setArg(k, pos, value): clSetKernelArg under CHECK. Every call is
      recorded; a successful one binds the slot and touches nothing else. */
  function SetArg(k: Kernel, pos: nat, arg: Arg): (r: Result<Kernel>)
    ensures r.Success? <==> ArgStatus(k, pos, arg) == CL_SUCCESS
    ensures r.Failure? ==> r.fault == CheckFailed(ArgStatus(k, pos, arg))
    ensures r.Success? ==> r.value == k.(bound := k.bound[pos := arg.bytes], calls := k.calls + [pos])
  {
    var status := ArgStatus(k, pos, arg);
    if status != CL_SUCCESS then Failure(CheckFailed(status))
    else Success(k.(bound := k.bound[pos := arg.bytes], calls := k.calls + [pos]))
  }

  /** The slots 0, 1, ..., n - 1. */
  function Slots(n: nat): (s: seq<nat>)
    ensures |s| == n && forall j :: 0 <= j < n ==> s[j] == j
  {
    seq(n, j => j)
  }

  /** Every one of the args fits the kernel's parameter at its position, and
      the runtime reports no failure for that slot. */
  predicate Fits(k: Kernel, args: seq<Arg>) {
    && |args| <= |k.paramSizes|
    && forall j :: 0 <= j < |args| ==> |args[j].bytes| == k.paramSizes[j] && SlotStatus(k, j) == CL_SUCCESS
  }

  /** The first position whose argument does not fit. */
  function FirstMisfit(k: Kernel, args: seq<Arg>): (j: nat)
    requires !Fits(k, args)
    ensures j < |args| && ArgStatus(k, j, args[j]) != CL_SUCCESS
    ensures forall i :: 0 <= i < j ==> ArgStatus(k, i, args[i]) == CL_SUCCESS
  {
    if Fits(k, args[..|args| - 1]) then
      assert forall i :: 0 <= i < |args| - 1 ==> args[..|args| - 1][i] == args[i];
      |args| - 1
    else
      assert forall i :: 0 <= i < |args| - 1 ==> args[..|args| - 1][i] == args[i];
      FirstMisfit(k, args[..|args| - 1])
  }

  /** setArgs(k, a, b, ...): the overload for n arguments calls the one for
      n - 1 and then setArg(k, n - 1, last). */
  function SetArgs(k: Kernel, args: seq<Arg>): (r: Result<Kernel>)
    requires 1 <= |args| <= MAX_ARGS
    ensures r.Success? <==> Fits(k, args)
    ensures r.Success? ==>
              && r.value.paramSizes == k.paramSizes && r.value.runtimeStatus == k.runtimeStatus
              && r.value.calls == k.calls + Slots(|args|)
              && (forall j: nat :: j in r.value.bound <==> j in k.bound || j < |args|)
              && (forall j :: 0 <= j < |args| ==> r.value.bound[j] == args[j].bytes)
              && (forall j :: j in k.bound && j >= |args| ==> r.value.bound[j] == k.bound[j])
    ensures r.Failure? ==>
              r.fault == CheckFailed(ArgStatus(k, FirstMisfit(k, args), args[FirstMisfit(k, args)]))
    decreases |args|
  {
    var last := |args| - 1;
    if last == 0 then
      SetArg(k, 0, args[0])
    else
      var init := args[..last];
      assert forall i :: 0 <= i < last ==> init[i] == args[i];
      var k' :- SetArgs(k, init);
      SetArg(k', last, args[last])
  }

  // ---------------------------------------------------------------------
  // The command queue and run

  class Queue {
    var commands: seq<Launch>
    /** How many of the commands finish has waited for. */
    var completed: nat

    ghost predicate Valid()
      reads this
    {
      completed <= |commands|
    }

    constructor ()
      ensures Valid() && commands == [] && completed == 0
    {
      commands := [];
      completed := 0;
    }

    /** clEnqueueNDRangeKernel under CHECK: the launch is queued when the
        runtime accepts it. */
    method Enqueue(launch: Launch, status: int) returns (r: Result<()>)
      requires Valid()
      modifies this
      ensures Valid() && r == Check(status) && completed == old(completed)
      ensures commands == if status == CL_SUCCESS then old(commands) + [launch] else old(commands)
    {
      r := Check(status);
      if r.Success? {
        commands := commands + [launch];
      }
    }

    /** finish(q): clFinish under CHECK; afterwards every queued command is complete. */
    method Finish(status: int) returns (r: Result<()>)
      requires Valid()
      modifies this
      ensures Valid() && r == Check(status) && commands == old(commands)
      ensures completed == if status == CL_SUCCESS then |commands| else old(completed)
    {
      r := Check(status);
      if r.Success? {
        completed := |commands|;
      }
    }
  }

  /** run(queue, kernel, workSize, counter): enqueue with group size 256;
      with a counter, finish the queue and then tick the counter once;
      without one, return at once and leave every counter alone. */
  method Run(q: Queue, kernel: Kernel, workSize: nat, counter: TimeCounter?,
             enqueueStatus: int, finishStatus: int, now: TimeVal) returns (r: Result<()>)
    requires q.Valid()
    requires counter != null ==> counter.timer.Valid() && IsReading(now)
    modifies q, if counter != null then {counter, counter.timer} else {}
    ensures q.Valid()
    ensures q.commands == old(q.commands) + (if enqueueStatus == CL_SUCCESS then [Launch(kernel, workSize, GROUP_SIZE)] else [])
    ensures enqueueStatus != CL_SUCCESS ==> r == Failure(CheckFailed(enqueueStatus))
    ensures enqueueStatus == CL_SUCCESS && counter == null ==> r == Success(())
    ensures enqueueStatus == CL_SUCCESS && counter != null ==> r == Check(finishStatus)
    ensures q.completed == (if r.Success? && counter != null then |q.commands| else old(q.completed))
    ensures counter != null && r.Success? ==>
              && counter.us == Add64(old(counter.us), MicroDelta(old(counter.timer.prev), TimeMicros(now)))
              && counter.timer.prev == TimeMicros(now) && counter.timer.Valid()
    ensures counter != null && r.Failure? ==>
              counter.us == old(counter.us) && counter.timer.prev == old(counter.timer.prev)
  {
    r := q.Enqueue(Launch(kernel, workSize, GROUP_SIZE), enqueueStatus);
    if r.Failure? {
      return;
    }
    if counter != null {
      r := q.Finish(finishStatus);
      if r.Failure? {
        return;
      }
      counter.Tick(now);
    }
  }

  /** run(queue, kernel, workSize, a) and run(queue, kernel, workSize, a, b):
      setArgs, then run without a counter. Returns the kernel as bound. */
  method RunWithArgs(q: Queue, kernel: Kernel, workSize: nat, args: seq<Arg>, enqueueStatus: int)
      returns (r: Result<Kernel>)
    requires q.Valid() && 1 <= |args| <= 2
    modifies q
    ensures q.Valid() && q.completed == old(q.completed)
    ensures SetArgs(kernel, args).Failure? ==> r == SetArgs(kernel, args) && q.commands == old(q.commands)
    ensures SetArgs(kernel, args).Success? ==>
              && r == (if enqueueStatus == CL_SUCCESS then SetArgs(kernel, args) else Failure(CheckFailed(enqueueStatus)))
              && q.commands == old(q.commands)
                   + (if enqueueStatus == CL_SUCCESS then [Launch(SetArgs(kernel, args).value, workSize, GROUP_SIZE)] else [])
  {
    var bound := SetArgs(kernel, args);
    if bound.Failure? {
      return bound;
    }
    var done := Run(q, bound.value, workSize, null, enqueueStatus, CL_SUCCESS, TimeVal(0, 0));
    if done.Failure? {
      return Failure(done.fault);
    }
    r := bound;
  }

  // ---------------------------------------------------------------------
  // Properties of the slot order

  /** The n-argument overload is the (n-1)-argument one followed by one
      setArg on slot n - 1: binding args then more equals binding all. */
  lemma {:induction false} SetArgsThenSetArg(k: Kernel, args: seq<Arg>, a: Arg)
    requires 1 <= |args| < MAX_ARGS
    ensures SetArgs(k, args + [a]) ==
              match SetArgs(k, args)
              case Failure(f) => Failure(f)
              case Success(k') => SetArg(k', |args|, a)
  {
    assert (args + [a])[..|args|] == args;
  }

  /** Binding in increasing slot order: the calls made are slots 0..n-1 in
      order, whichever kernel the arguments are bound to. */
  lemma SlotOrder(k: Kernel, args: seq<Arg>, i: nat, j: nat)
    requires 1 <= |args| <= MAX_ARGS && SetArgs(k, args).Success?
    requires i < j < |args|
    ensures var calls := SetArgs(k, args).value.calls;
            calls[|k.calls| + i] == i < j == calls[|k.calls| + j]
  {
  }
}
