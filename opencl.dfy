/** The few OpenCL constants the wrapper relies on, and its CHECK policy. */
module OpenCl {
  import opened Outcomes

  const CL_SUCCESS: int := 0
  const CL_DEVICE_TYPE_GPU: nat := 4            // 1 << 2
  const CL_DEVICE_TYPE_ALL: nat := 0xFFFF_FFFF

  // Status codes the runtime returns in the situations the model covers (OpenCL 1.2).
  const CL_DEVICE_NOT_FOUND: int := -1
  const CL_INVALID_VALUE: int := -30
  const CL_INVALID_ARG_INDEX: int := -49
  const CL_INVALID_ARG_SIZE: int := -51

  /** The smaller of two sizes. */
  function Min(a: int, b: int): int { if a <= b then a else b }

  /** The CHECK macro: any status but CL_SUCCESS is printed and ends the process. */
  function Check(status: int): (r: Result<()>)
    ensures r.Success? <==> status == CL_SUCCESS
    ensures r.Failure? ==> r.fault == CheckFailed(status)
  {
    if status == CL_SUCCESS then Success(()) else Failure(CheckFailed(status))
  }
}
