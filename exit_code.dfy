/// `wasi_exit_code` (lib/wasix/src/state/builder.rs 871-889): the outcome of
/// a guest run is turned into a verdict and an exit code, treating an
/// explicit `exit(0)` as success rather than as an error.
module ExitCodes {
  import opened WasixTypes

  /** An exit code by its raw value; a raw value of 0 is success. */
  datatype ExitCode = ExitCode(raw: int) {
    /** `ExitCode::is_success` */
    predicate IsSuccess() { raw == 0 }
  }

  /** `Errno::Success.into()` */
  const Success: ExitCode := ExitCode(0)

  /** `Errno::Noexec.into()`: errno 45 of WASI, "executable file format error". */
  const Noexec: ExitCode := ExitCode(45)

  /** `WasiRuntimeError`: `exitCode` is what `as_exit_code` returns; `detail`
      tells apart the other payloads, which are not part of this model. */
  datatype WasiRuntimeError = WasiRuntimeError(exitCode: Option<ExitCode>, detail: nat)

  type RunResult = Result<(), WasiRuntimeError>

  /** `wasi_exit_code`: a successful run, or one ended by an explicit exit with a
      success code, yields `(Ok, Success)`; an explicit exit with another code
      keeps the error and yields that code; any other error keeps the error and
      yields `Noexec`. */
  function WasiExitCode(result: RunResult): (r: (RunResult, ExitCode))
    ensures r.0.Ok? <==> r.1.IsSuccess()
    ensures r.0.Ok? <==> result.Ok? || (result.error.exitCode.Some? && result.error.exitCode.value.IsSuccess())
    ensures r.0.Ok? ==> r == (Ok(()), Success)
    ensures r.0.Err? ==> r.0 == result
    ensures result.Err? && result.error.exitCode.Some? && !result.error.exitCode.value.IsSuccess() ==>
              r.1 == result.error.exitCode.value
    ensures result.Err? && result.error.exitCode.None? ==> r.1 == Noexec
  {
    match result
    case Ok(_) => (Ok(()), Success)
    case Err(err) =>
      match err.exitCode
      case Some(code) =>
        if code.IsSuccess() then (Ok(()), Success) else (result, code)
      case None => (result, Noexec)
  }

  /** Normalising an already normalised result changes nothing. */
  lemma WasiExitCodeIdempotent(result: RunResult)
    ensures WasiExitCode(WasiExitCode(result).0) == WasiExitCode(result)
  {
  }

  /** The exit code reported is never success for a run that stays an error,
      and an error is never invented: the verdict only ever moves from Err to Ok. */
  lemma WasiExitCodeMonotone(result: RunResult)
    ensures result.Ok? ==> WasiExitCode(result).0.Ok?
    ensures WasiExitCode(result).0.Err? ==> result.Err? && WasiExitCode(result).1 != Success
  {
  }

  /** The four cases as concrete values. */
  lemma WasiExitCodeCases(detail: nat)
    ensures WasiExitCode(Ok(())) == (Ok(()), Success)
    ensures WasiExitCode(Err(WasiRuntimeError(Some(ExitCode(0)), detail))) == (Ok(()), Success)
    ensures WasiExitCode(Err(WasiRuntimeError(Some(ExitCode(1)), detail)))
         == (Err(WasiRuntimeError(Some(ExitCode(1)), detail)), ExitCode(1))
    ensures WasiExitCode(Err(WasiRuntimeError(None, detail))) == (Err(WasiRuntimeError(None, detail)), ExitCode(45))
  {
  }
}
