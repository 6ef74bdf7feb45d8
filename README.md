# clwrap: a Dafny model of gpuowl's OpenCL wrapper

`clwrap.h` is the thin layer through which gpuowl talks to an OpenCL runtime.
This project models it and proves properties of the model. It covers:

- the wall-clock helpers (`timeMillis`, `timeMicros`) and the three timing
  classes (`Timer`, `MicroTimer`, `TimeCounter`), with the source's unsigned
  64-bit arithmetic written out as arithmetic modulo 2^64;
- the `CHECK` fail-fast policy;
- device enumeration (`getDeviceIDs`, `getNumberOfDevices`), including the
  8-slot platform array;
- device description (`getInfo`, `getDeviceInfo`), with C strings, the
  128-byte buffers and `snprintf` truncation;
- program compilation with the fallback from OpenCL C 2.0 to 1.x, and the
  build log shown when both builds fail;
- positional kernel arguments (`setArg`, `setArgs` for one to six arguments);
- kernel launches on a command queue, with the optional time counter.

The OpenCL runtime is not part of this model. Each runtime call becomes values
handed in by the caller:

- the status code the call returns (except for the per-platform
  `clGetDeviceIDs` query, whose status follows from the devices it finds;
  see "## Left out");
- the platforms and their devices;
- the strings a device reports;
- the outcome of each build.

Where the wrapper relies on what a call writes, the model follows the
OpenCL 1.2 specification:

- `clGetDeviceIDs` (section 4.2) writes at most the room given, reports the
  full count, and returns `CL_DEVICE_NOT_FOUND` when nothing matches.
- `clGetDeviceInfo` (section 4.2) reports string sizes that include the NUL
  terminator, and returns `CL_INVALID_VALUE` when the buffer is too small.
- `clSetKernelArg` (section 5.7.2) returns `CL_INVALID_ARG_INDEX` or
  `CL_INVALID_ARG_SIZE`. Any other failure for a slot, such as
  `CL_INVALID_KERNEL` or `CL_OUT_OF_RESOURCES`, is an input carried by the
  kernel and is reported first.

Faults that end the process are modelled as the failure side of `Result`:

- `CheckFailed(code)` for `CHECK`;
- `AssertFailed` for `assert`;
- `OutOfBounds` for an access past a fixed-size array.

Mutable state keeps its C++ shape. The timers, the time counter and the command
queue are classes, and `getDeviceIDs` fills a caller-owned `array`. Each loop
method is proved against a loop-free specification:

- `Devices.ListOutcome`, `Devices.Offers` and `Devices.Filled` for `getDeviceIDs`;
- `Devices.CountOutcome` for `getNumberOfDevices`.

Lemmas then relate those specifications to each other and to plain sums.

Files:

- `outcomes.dfy`: `Option`, `Result`, `Fault`.
- `opencl.dfy`: constants and `Check`.
- `uint64.dfy`: `u64` wrap-around.
- `timing.dfy`: clocks and timers.
- `devices.dfy`: enumeration.
- `device_info.dfy`: device strings.
- `compile.dfy`: program compilation.
- `kernels.dfy`: arguments, queue and launches.

Some behaviour of the code is easy to misread:

- `getNumberOfDevices` counts devices of every type (`CL_DEVICE_TYPE_ALL`),
  whatever `onlyGPU` a later `getDeviceIDs` call uses.
- A platform with no matching device makes the per-platform query fail under
  `CHECK`. It is not counted as zero.
- The 8-slot platform array does not limit the loops. When the runtime
  reports more than 8 platforms, the loop reads past `platforms[8]`
  (modelled as `OutOfBounds`) unless an earlier stop intervenes.
- `getDeviceIDs` returns the running total the runtime reports. That total
  can exceed the number of handles actually written.
- A device string longer than its 128-byte buffer fails under `CHECK` with
  `CL_INVALID_VALUE`. The `assert` fires only for a string of exactly
  127 characters.
- The build log's terminator can land one past the 64 KiB buffer (see Findings).

## Model

| member | source | states |
|---|---|---|
| UInt64.Add64 | clwrap.h:62 | the sum of two `u64` is the true sum modulo 2^64, and exact when it does not overflow |
| UInt64.Sub64 | clwrap.h:35 | the `u64` difference is the true difference modulo 2^64, exact when no borrow occurs, and adding it back to the subtrahend gives the minuend |
| UInt64.SubChain | clwrap.h:33-38 | two consecutive wrapped differences add up to the wrapped difference across both |
| OpenCl.Check | clwrap.h:67 | `CHECK` succeeds exactly on `CL_SUCCESS`; otherwise it fails carrying the status code |
| Timing.TimeMillis | clwrap.h:15-19 | the millisecond reading keeps the seconds in its thousands and the milliseconds of `tv_usec` below them |
| Timing.TimeMicros | clwrap.h:21-25 | the microsecond reading is below one second and equals the time in microseconds modulo one second |
| Timing.TimeMillisMonotone | clwrap.h:15-19 | a later clock reading never gives a smaller millisecond value |
| Timing.TimerDeltaElapsed | clwrap.h:33-38 | for increasing readings the wrapped delta is the plain difference of the millisecond values |
| Timing.Timer.constructor | clwrap.h:31 | a new timer holds the current millisecond reading |
| Timing.Timer.Delta | clwrap.h:33-38 | the delta is the wrapped difference from the previous reading and restores the new reading when added to the old one; the timer then holds the new reading |
| Timing.TimerDeltasTelescope | clwrap.h:33-38 | over any run of readings the deltas sum (mod 2^64) to the last reading minus the first |
| Timing.MicroDelta | clwrap.h:49 | for microsecond readings the delta lies in 1..10^6, is congruent to the true difference modulo one second, and two equal readings count as a full second |
| Timing.MicroDeltaElapsed | clwrap.h:47-52 | when at most one second, and more than zero, passed between readings, the delta is exactly the elapsed microseconds |
| Timing.MicroTimer.constructor | clwrap.h:45 | a new micro timer holds the current microsecond reading |
| Timing.MicroTimer.Delta | clwrap.h:47-52 | the delta is in 1..10^6, congruent to the elapsed time modulo one second, a full second for equal readings; the timer keeps a valid reading |
| Timing.MicroDeltasTelescope | clwrap.h:47-52 | over a run of readings the deltas total the last reading minus the first plus one second per wrap |
| Timing.MicroDeltasModSecond | clwrap.h:47-52 | over a run of readings the deltas total the elapsed time modulo one second |
| Timing.TimeCounter.constructor | clwrap.h:60 | a new counter shares the given timer and starts at zero |
| Timing.TimeCounter.Tick | clwrap.h:62 | a tick adds the timer's delta to the count modulo 2^64 and advances the timer |
| Timing.TimeCounter.Get | clwrap.h:63 | returns the accumulated count |
| Timing.TimeCounter.Reset | clwrap.h:64 | the count becomes zero |
| Timing.AccumulatedIsSum | clwrap.h:62 | a run of ticks accumulates the total of the deltas modulo 2^64 |
| Timing.ResetThenThreeTicks | clwrap.h:60-64 | reset followed by three ticks yields the sum of the three micro deltas modulo 2^64 |
| Devices.DeviceCount | clwrap.h:85 | a per-platform query reports the number of matching devices and succeeds iff there is at least one |
| Devices.QueryDevices | clwrap.h:85 | the query writes the first `min(room, count)` matching handles at the offset and leaves the rest of `out` untouched |
| Devices.GetDeviceIDs | clwrap.h:77-89 | a failed platform query fails with its code and writes nothing; otherwise the result, the per-platform queries and the new contents of `out` are the listing specification (`Devices.Listing`) |
| Devices.ListPlatforms | clwrap.h:82-88 | the loop over the platforms meets the listing specification: outcome, queries made, the handles written below `size` and nothing written above it |
| Devices.ListFromRest | clwrap.h:83-87 | from any point the loop can reach, running the rest of the loop yields the listing outcome |
| Devices.ListNoRoom | clwrap.h:83 | with no room the loop visits no platform and returns 0 |
| Devices.ListingNoRoom | clwrap.h:82-88 | a listing with size 0 succeeds with 0, makes no query and leaves `out` unchanged |
| Devices.OffersRoom | clwrap.h:85 | each query the loop makes offers room in 1..size at the offset of the devices already listed |
| Devices.ListingQueries | clwrap.h:85 | in any listing, query i goes to platform i with the offset of the devices before it and a room between 1 and size |
| Devices.ListedCount | clwrap.h:86-88 | a successful listing returns at most the total device count, agrees with it up to `size`, and returns exactly the total when that is below `size` |
| Devices.ListedHandles | clwrap.h:82-88 | a successful listing writes exactly the first `min(size, n)` handles of all platforms, in platform order |
| Devices.VisitedLeast | clwrap.h:83 | the loop stops no later than the first platform at which the total reaches `size` |
| Devices.VisitedBelow | clwrap.h:83 | every platform the loop visits is reached with the total still below `size` |
| Devices.GetNumberOfDevices | clwrap.h:91-103 | a failed platform query fails with its code; otherwise the result is the counting specification over all device types |
| Devices.CountFromRest | clwrap.h:97-101 | from any point the loop can reach, running the rest of the counting loop yields the counting outcome |
| Devices.CountSucceeds | clwrap.h:96-102 | counting succeeds iff there are at most 8 platforms and each has a device; it then returns the sum of the counts |
| Devices.ScanOutOfBounds | clwrap.h:78-85 | the scan reads past the 8-slot array iff it goes beyond slot 8 and every one of the first 8 platforms has a device |
| Devices.ListWithRoomIsCount | clwrap.h:77-103 | with more room than there are devices, listing and counting have the same outcome |
| Devices.CountThenList | clwrap.h:77-103 | listing with exactly the counted number of slots succeeds with that number and visits every platform |
| DeviceInfo.QueryString | clwrap.h:72 | a string query succeeds iff the property is available and the buffer fits the text and its NUL; it then reports that size and writes text and NUL; otherwise the buffer is untouched |
| DeviceInfo.GetInfo | clwrap.h:70-75 | fails with the query's code, with `CL_INVALID_VALUE` when the buffer is too small, or by `assert` when the text and NUL exactly fill it; succeeds otherwise, leaving the device's text as the C string |
| DeviceInfo.CStringOfTerminated | clwrap.h:74 | a buffer holding a terminated text reads back as that text |
| DeviceInfo.Describe | clwrap.h:114 | the description starts with the name and the separator and has the length of name, separator, version and optional ECC suffix |
| DeviceInfo.Snprintf | clwrap.h:114 | `snprintf` leaves an empty buffer alone and otherwise leaves the text cut to one less than the buffer size as its C string |
| DeviceInfo.GetDeviceInfo | clwrap.h:105-115 | succeeds iff name, version and ECC flag are available and both strings fit; then writes the formatted description; otherwise fails as the first failing step does, in source order: name query, name length, version query, version length, ECC query |
| DeviceInfo.ParseDescribe | clwrap.h:114 | a description parses back into its name, version and ECC flag when the name holds no `;` and the version does not itself end in " (ECC)" |
| DeviceInfo.EccSuffix | clwrap.h:114 | when the version does not itself end in " (ECC)", the part after the separator ends in " (ECC)" iff the device reported ECC support |
| DeviceInfo.DescribeExample | clwrap.h:114 | name "X" and version "Y" are described as "X; Y (ECC)" with ECC and "X; Y" without |
| DeviceInfo.DescriptionWritten | clwrap.h:105-115 | with every query answering, the info buffer holds the description truncated to its size, and the whole of it when it fits |
| Compile.Options | clwrap.h:150 | the option string is the prefix and the caller's options, cut to what the 64 KiB buffer holds |
| Compile.OptionsWhole | clwrap.h:150-153 | options that fit the buffer are passed whole |
| Compile.Builds | clwrap.h:149-155 | compilation tries the OpenCL C 2.0 options first, tries the 1.x options iff that build returns a negative code, and its outcome is that of the last build |
| Compile.Fallback | clwrap.h:149-155 | with a readable source and a created program, compilation (with the corrected terminator) succeeds and builds once, or twice when the first build returns a negative code |
| Compile.CompileProgram | clwrap.h:132-166 | compile as written: a missing file gives no program; a source filling the buffer fails the `assert`; a failing create fails under `CHECK`; a failed last build with a log of 65535 characters or more faults out of bounds; otherwise it returns the program iff the last build succeeds, and shows the log iff it does not |
| Compile.CompileProgramCorrected | clwrap.h:132-166 | compile with the corrected terminator: the same outcomes, except that a failed build never faults and shows the log, or the last option string when the log does not fit the buffer |
| Compile.ProgramReturned | clwrap.h:132-166 | a program is returned iff the file exists and the last build succeeds |
| Compile.ShowLogAsWritten | clwrap.h:157-160 | the log terminator as written lands outside the buffer iff the log has 65535 characters or more; otherwise the log is shown |
| Compile.CorrectedTerminator | clwrap.h:160 | the corrected terminator index `min(logSize, sizeof(buf) - 1)` is always inside the buffer, and is `logSize` whenever that is |
| Compile.ShowLog | clwrap.h:157-162 | with the corrected terminator a log that fits with its NUL is shown whole; otherwise the buffer still holds the last build options, which are shown |
| Compile.LogTerminatorOverrun | clwrap.h:158-160 | a 65535-character log plus its NUL fits the buffer, yet the terminator as written is out of bounds, while the corrected one is the last cell and shows the log |
| Compile.CompileLogOverrun | clwrap.h:157-163 | after a failed build with a 65535-character log, compile as written faults while the corrected compile returns no program and shows the log |
| Compile.ShowLogAgrees | clwrap.h:158-160 | for logs shorter than 65535 characters the code as written and the corrected version agree |
| Compile.CompileAgrees | clwrap.h:132-166 | whenever compile as written does not fault on the log terminator, the corrected compile returns the same result |
| Kernels.ArgStatus | clwrap.h:182 | a failure the runtime lists for the slot is returned first; otherwise binding succeeds iff the slot exists and the value's size matches the parameter's size |
| Kernels.SetArg | clwrap.h:182 | a binding succeeds iff its status is `CL_SUCCESS`; it then stores the value's bytes at the slot and records the call, otherwise fails with the status |
| Kernels.FirstMisfit | clwrap.h:183-194 | the first argument that cannot be bound, with all those before it bindable |
| Kernels.SetArgs | clwrap.h:183-194 | binding succeeds iff every argument fits and no slot it uses has a runtime failure; then slots 0..n-1 hold the arguments, are called in order and other slots are kept; otherwise fails with the first misfit's status |
| Kernels.SetArgsThenSetArg | clwrap.h:184-193 | binding n+1 arguments is binding n and then binding the last at slot n |
| Kernels.SlotOrder | clwrap.h:183-194 | earlier arguments are bound before later ones |
| Kernels.Queue.constructor | clwrap.h:222 | the runtime's command queue that `run` enqueues into starts with no commands and none completed |
| Kernels.Queue.Enqueue | clwrap.h:222 | a successful enqueue appends the launch; a failing one changes nothing and fails with its status |
| Kernels.Queue.Finish | clwrap.h:218 | a successful finish marks every enqueued command complete; a failing one fails with its status |
| Kernels.Run | clwrap.h:220-227 | a launch enqueues the kernel with group size 256; with a counter it then finishes the queue and ticks the counter; without one it returns at once and needs no clock reading; failures stop it and leave the counter untouched |
| Kernels.RunWithArgs | clwrap.h:229-237 | binding one or two arguments then launching: a failed binding enqueues nothing; otherwise the launch carries the bound kernel |

## Left out

- Devices.DeviceCount: the per-platform `clGetDeviceIDs` query fails only with `CL_DEVICE_NOT_FOUND`, when no device matches. Other failures the runtime may report, such as `CL_OUT_OF_RESOURCES` or `CL_OUT_OF_HOST_MEMORY` for a platform that has devices, are not modelled. So `Devices.CountSucceeds`, `Devices.GetDeviceIDs` and `Devices.GetNumberOfDevices` describe a runtime whose device queries fail in no other way.
- `createContext`, `makeKernel`, `makeBuf`, `makeQueue` and the five `release` overloads (clwrap.h:117-130, 175-180, 196-208): each forwards one runtime call under `CHECK`. `Check` models that, and the handles are opaque.
- `flush`, `read`, `write` (clwrap.h:217, 239-245): single runtime calls under `CHECK`. Transfers, blocking and ordering against kernels are runtime behaviour.
- The asynchrony of the queue is not modelled: `Queue` records submitted and completed commands, not execution.
- The commented-out `run` (clwrap.h:210-215) is not code.
- Diagnostic printing to `stderr`/`stdout` (`CHECK`'s message, the fallback notice, the log print) is not modelled. `CompileProgram` records the log that would be shown.
- `gettimeofday` and the clock itself are left out: readings are parameters of the timing members.
- Timing.TimeMillis: requires a non-negative reading whose millisecond value fits a signed 64-bit integer, so the `long` multiplication cannot overflow.
- `CHECK2` (clwrap.h:68) differs from `CHECK` only in its message.
- Devices.GetDeviceIDs: `n`, `delta` and `nPlatforms` are 32-bit `unsigned` in the source. The model uses unbounded naturals, so a total of 2^32 or more devices does not wrap.
- Devices.GetDeviceIDs: the room `size - n` is a `size_t` narrowed to `clGetDeviceIDs`' 32-bit `unsigned` parameter (tinycl.h:29). The model offers the full room, so for `size` of 2^32 or more it does not capture the truncated (possibly zero) room the runtime would see.
- Devices.GetDeviceIDs: the result is returned as a 32-bit `int` (clwrap.h:77). The model returns the natural total, so a total of 2^31 or more does not come back negative.
- Devices.GetNumberOfDevices: `n` is a 32-bit `unsigned` and the result a 32-bit `int` (clwrap.h:91, 96). The model returns the natural sum, so it captures neither the wrap at 2^32 nor a negative result at 2^31 or more.
- Devices.GetDeviceIDs: the handle array's initial contents are a parameter.
- DeviceInfo.GetDeviceInfo: the uninitialised `name` and `version` buffers are modelled as NUL-filled. `GetInfo`'s C string does not depend on their contents.
- Compile.CompileProgram: the status of `clGetProgramBuildInfo` is ignored, as in the source. The model assumes the runtime reports the full log size even when the log does not fit, and leaves the buffer unchanged then.
- Compile.CompileProgram: a program object whose build failed is not released (a leak in the source). The model does not track runtime resources.
- Compile.Options: `opts` is treated as plain text. A NUL inside it is not modelled.
- Kernels.SetArgs: arguments are values whose size is their byte length. `__local` and memory-object arguments and their size rules are not modelled.
- Kernels.Run: global work sizes that are not a multiple of 256 are left to the runtime's status code. They are not validated, as in the source.

## Findings

| source | as written | input that shows it | evidently intended | confidence | as-written member | corrected member |
|---|---|---|---|---|---|---|
| clwrap.h:158-160 | `buf[logSize] = 0` where `logSize` counts the log's NUL and may be as large as `sizeof(buf)` | a build log of 65535 characters: with its NUL it fills the 64 KiB buffer, `logSize` is 65536, and the terminator is written one past the end | terminate at `min(logSize, sizeof(buf) - 1)`, always inside the buffer | not executed; high for that input | Compile.CompileProgram, Compile.ShowLogAsWritten, Compile.LogTerminatorOverrun, Compile.CompileLogOverrun | Compile.CompileProgramCorrected, Compile.ShowLog |
