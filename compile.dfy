/**
 * compile in clwrap.h: read an OpenCL source file, create a program from it,
 * build it first as OpenCL 2.0 and, if that build reports an error, once more
 * as OpenCL 1.x; return the program when the last build succeeded and null
 * (None) otherwise, after printing the build log.
 *
 * The file system and the OpenCL runtime are inputs: the file is None when
 * it cannot be opened and its text otherwise, and a Toolchain says what
 * clCreateProgramWithSource and clBuildProgram return and what build log the
 * runtime holds. The log is shown from the same 64 KiB buffer the source
 * text and the option strings were held in.
 */
module Compile {
  import opened Outcomes
  import opened OpenCl

  /** `char buf[64 * 1024]`. */
  const SOURCE_BUFFER: nat := 64 * 1024

  const CL2_OPTIONS: string := "-cl-fast-relaxed-math -cl-std=CL2.0 -cl-uniform-work-group-size "
  const CL1_OPTIONS: string := "-cl-fast-relaxed-math "

  type ProgramId = nat

  /** What the runtime answers: the status of clCreateProgramWithSource and the
      program it creates, the status clBuildProgram returns for an option
      string, and the build log it keeps for the program. */
  datatype Toolchain = Toolchain(createStatus: int, program: ProgramId, build: string -> int, log: string)

  /** What compile did: the source text handed to the runtime (None when the
      file could not be opened), the option strings it built with, in order,
      the program returned (None is the null program) and the log it printed. */
  datatype Compilation = Compilation(source: Option<string>, builds: seq<string>,
                                     program: Option<ProgramId>, shownLog: Option<string>)

  /** snprintf(buf, sizeof(buf), "<prefix>%s", opts): the C string left in buf,
      at most SOURCE_BUFFER - 1 characters. */
  function Options(prefix: string, opts: string): (o: string)
    ensures o <= prefix + opts
    ensures |o| == Min(|prefix + opts|, SOURCE_BUFFER - 1)
  {
    (prefix + opts)[..Min(|prefix + opts|, SOURCE_BUFFER - 1)]
  }

  /** The build step: CL2.0 options first; the CL1.x options only when the
      first build returned a negative status. Yields the option strings used
      and the status of the last build. */
  function Builds(tc: Toolchain, opts: string): (b: (seq<string>, int))
    ensures 1 <= |b.0| <= 2 && b.0[0] == Options(CL2_OPTIONS, opts)
    ensures |b.0| == 2 <==> tc.build(Options(CL2_OPTIONS, opts)) < 0
    ensures |b.0| == 2 ==> b.0[1] == Options(CL1_OPTIONS, opts)
    ensures b.1 == tc.build(b.0[|b.0| - 1])
  {
    var first := Options(CL2_OPTIONS, opts);
    var err := tc.build(first);
    if err < 0 then
      var second := Options(CL1_OPTIONS, opts);
      ([first, second], tc.build(second))
    else ([first], err)
  }

  /** Showing the build log as the source does: clGetProgramBuildInfo fills buf
      when the log and its NUL fit and reports their size logSize either way,
      then `buf[logSize] = 0`. That index is past the buffer once the log has
      SOURCE_BUFFER - 1 characters or more. */
  function ShowLogAsWritten(log: string): (r: Result<string>)
    ensures r.Failure? <==> |log| >= SOURCE_BUFFER - 1
    ensures r.Failure? ==> r.fault == OutOfBounds
    ensures r.Success? ==> r.value == log
  {
    var logSize := |log| + 1;
    if logSize >= SOURCE_BUFFER then Failure(OutOfBounds)
    else Success(log)
  }

  /** Where the corrected code puts the terminator: `buf[min(logSize,
      sizeof(buf) - 1)] = 0`, which is always inside the buffer and, for a log
      that fits with room to spare, just after the NUL the runtime wrote. */
  function CorrectedTerminator(logSize: nat): (at: nat)
    ensures at < SOURCE_BUFFER
    ensures logSize < SOURCE_BUFFER ==> at == logSize
    ensures logSize >= SOURCE_BUFFER ==> at == SOURCE_BUFFER - 1
  {
    Min(logSize, SOURCE_BUFFER - 1)
  }

  /** The C string the corrected code prints. A log that fits with its NUL was
      written by the runtime and ends before CorrectedTerminator; one that does
      not fit leaves the buffer as it was, holding lastOptions, the C string of
      the last build options, which ends before the terminator too. */
  function ShowLog(log: string, lastOptions: string): (s: string)
    ensures |log| < SOURCE_BUFFER ==> s == log
    ensures |log| >= SOURCE_BUFFER ==> s == lastOptions
  {
    if |log| + 1 <= SOURCE_BUFFER then log else lastOptions
  }

  /** compile(device, context, fileName, opts) as written, with the file's text
      (None when fopen fails) and the runtime's answers. A failed build shows
      its log through `buf[logSize] = 0`, a fault for logs of SOURCE_BUFFER - 1
      characters or more. */
  function CompileProgram(file: Option<string>, opts: string, tc: Toolchain): (r: Result<Compilation>)
    ensures file.None? ==> r == Success(Compilation(None, [], None, None))
    ensures file.Some? && |file.value| >= SOURCE_BUFFER ==> r == Failure(AssertFailed)
    ensures file.Some? && |file.value| < SOURCE_BUFFER && tc.createStatus != CL_SUCCESS ==>
              r == Failure(CheckFailed(tc.createStatus))
    ensures file.Some? && |file.value| < SOURCE_BUFFER && tc.createStatus == CL_SUCCESS ==>
              (r.Failure? <==> Builds(tc, opts).1 != CL_SUCCESS && |tc.log| >= SOURCE_BUFFER - 1)
    ensures r.Failure? && file.Some? && |file.value| < SOURCE_BUFFER && tc.createStatus == CL_SUCCESS ==>
              r.fault == OutOfBounds
    ensures r.Success? && file.Some? ==>
              && r.value.source == file
              && r.value.builds == Builds(tc, opts).0
              && (r.value.program.Some? <==> Builds(tc, opts).1 == CL_SUCCESS)
              && (r.value.program.Some? ==> r.value.program == Some(tc.program) && r.value.shownLog.None?)
              && (r.value.program.None? ==> r.value.shownLog == Some(tc.log))
  {
    match file
    case None => Success(Compilation(None, [], None, None))
    case Some(text) =>
      if !(|text| < SOURCE_BUFFER) then Failure(AssertFailed)
      else if tc.createStatus != CL_SUCCESS then Failure(CheckFailed(tc.createStatus))
      else
        var (builds, err) := Builds(tc, opts);
        if err != CL_SUCCESS then
          var shown :- ShowLogAsWritten(tc.log);
          Success(Compilation(Some(text), builds, None, Some(shown)))
        else Success(Compilation(Some(text), builds, Some(tc.program), None))
  }

  /** compile with the corrected log terminator: a failed build never faults
      and shows the log, or the last options when the log does not fit. */
  function CompileProgramCorrected(file: Option<string>, opts: string, tc: Toolchain): (r: Result<Compilation>)
    ensures file.None? ==> r == Success(Compilation(None, [], None, None))
    ensures file.Some? && |file.value| >= SOURCE_BUFFER ==> r == Failure(AssertFailed)
    ensures file.Some? && |file.value| < SOURCE_BUFFER && tc.createStatus != CL_SUCCESS ==>
              r == Failure(CheckFailed(tc.createStatus))
    ensures r.Success? <==> file.None? || (|file.value| < SOURCE_BUFFER && tc.createStatus == CL_SUCCESS)
    ensures r.Success? && file.Some? ==>
              && r.value.source == file
              && r.value.builds == Builds(tc, opts).0
              && (r.value.program.Some? <==> Builds(tc, opts).1 == CL_SUCCESS)
              && (r.value.program.Some? ==> r.value.program == Some(tc.program) && r.value.shownLog.None?)
              && (r.value.program.None? && |tc.log| < SOURCE_BUFFER ==> r.value.shownLog == Some(tc.log))
              && (r.value.program.None? && |tc.log| >= SOURCE_BUFFER ==>
                    r.value.shownLog == Some(r.value.builds[|r.value.builds| - 1]))
  {
    match file
    case None => Success(Compilation(None, [], None, None))
    case Some(text) =>
      if !(|text| < SOURCE_BUFFER) then Failure(AssertFailed)
      else if tc.createStatus != CL_SUCCESS then Failure(CheckFailed(tc.createStatus))
      else
        var (builds, err) := Builds(tc, opts);
        if err != CL_SUCCESS then
          Success(Compilation(Some(text), builds, None, Some(ShowLog(tc.log, builds[|builds| - 1]))))
        else Success(Compilation(Some(text), builds, Some(tc.program), None))
  }

  // ---------------------------------------------------------------------
  // Properties

  /** Short options are passed on whole. */
  lemma OptionsWhole(prefix: string, opts: string)
    requires |prefix| + |opts| < SOURCE_BUFFER
    ensures Options(prefix, opts) == prefix + opts
  {
  }

  /** compile returns a program exactly when the file was read, the program
      created and the last build returned CL_SUCCESS; it is the created one. */
  lemma ProgramReturned(file: Option<string>, opts: string, tc: Toolchain)
    requires CompileProgram(file, opts, tc).Success?
    ensures CompileProgram(file, opts, tc).value.program.Some? <==>
              file.Some? && Builds(tc, opts).1 == CL_SUCCESS
  {
  }

  /** A first build that succeeds, or fails with a non-negative status, is the
      only build; a CL2.0 failure with a negative status is retried as CL1.x. */
  lemma Fallback(text: string, opts: string, tc: Toolchain)
    requires |text| < SOURCE_BUFFER && tc.createStatus == CL_SUCCESS
    ensures var c := CompileProgramCorrected(Some(text), opts, tc);
            && c.Success?
            && (tc.build(Options(CL2_OPTIONS, opts)) >= 0 ==> c.value.builds == [Options(CL2_OPTIONS, opts)])
            && (tc.build(Options(CL2_OPTIONS, opts)) < 0 ==>
                  c.value.builds == [Options(CL2_OPTIONS, opts), Options(CL1_OPTIONS, opts)])
  {
    var b := Builds(tc, opts).0;
    if tc.build(Options(CL2_OPTIONS, opts)) >= 0 {
      assert b == [b[0]];
    } else {
      assert b == [b[0], b[1]];
    }
  }

  /** A build log of SOURCE_BUFFER - 1 characters fits in the buffer with its
      NUL (logSize is exactly SOURCE_BUFFER), yet the source's terminator goes
      one past the end; the corrected terminator stays inside and shows the
      whole log. */
  lemma LogTerminatorOverrun(log: string, lastOptions: string)
    requires |log| == SOURCE_BUFFER - 1
    ensures |log| + 1 <= SOURCE_BUFFER
    ensures ShowLogAsWritten(log) == Failure(OutOfBounds)
    ensures CorrectedTerminator(|log| + 1) == SOURCE_BUFFER - 1
    ensures ShowLog(log, lastOptions) == log
  {
  }

  /** The same log after a failed build: compile as written faults where the
      corrected compile returns no program and shows the log. */
  lemma CompileLogOverrun(text: string, opts: string, tc: Toolchain)
    requires |text| < SOURCE_BUFFER && tc.createStatus == CL_SUCCESS
    requires Builds(tc, opts).1 != CL_SUCCESS && |tc.log| == SOURCE_BUFFER - 1
    ensures CompileProgram(Some(text), opts, tc) == Failure(OutOfBounds)
    ensures CompileProgramCorrected(Some(text), opts, tc).Success?
    ensures CompileProgramCorrected(Some(text), opts, tc).value.shownLog == Some(tc.log)
  {
  }

  /** Below that length the source and the corrected terminator agree. */
  lemma ShowLogAgrees(log: string, lastOptions: string)
    requires |log| < SOURCE_BUFFER - 1
    ensures ShowLogAsWritten(log) == Success(ShowLog(log, lastOptions))
  {
  }

  /** Whenever compile as written does not fault on the log, the corrected
      compile gives the same answer. */
  lemma {:induction false} CompileAgrees(file: Option<string>, opts: string, tc: Toolchain)
    requires CompileProgram(file, opts, tc).Success? || CompileProgram(file, opts, tc).fault != OutOfBounds
    ensures CompileProgramCorrected(file, opts, tc) == CompileProgram(file, opts, tc)
  {
    if file.Some? && |file.value| < SOURCE_BUFFER && tc.createStatus == CL_SUCCESS
       && Builds(tc, opts).1 != CL_SUCCESS {
      ShowLogAgrees(tc.log, Builds(tc, opts).0[|Builds(tc, opts).0| - 1]);
    }
  }
}
