/*
 * The error values of the MIPS backend and their conversion into the
 * crate-wide error, plus the result shapes the rest of the model shares.
 *
 * A Rust function returns `Result<T, E>`; it may also panic (`todo!()`, an
 * `expect` on `None`, a slice of a too-short buffer). The model keeps the
 * panic as an outcome of its own instead of ruling the input out.
 */
module Errors {

  /** An unsigned 32-bit integer. */
  newtype u32 = x: int | 0 <= x < 0x1_0000_0000

  /** An unsigned 64-bit integer. */
  newtype u64 = x: int | 0 <= x < 0x1_0000_0000_0000_0000

  datatype Option<T> = None | Some(value: T)

  datatype Result<T, E> = Ok(value: T) | Err(error: E)

  /** A transport failure of the debug probe; what it carries is not modelled. */
  datatype DebugProbeError = DebugProbeError(code: nat)

  /** The failures of the MIPS core, one constructor per variant of the backend's error enum. */
  datatype MipsError =
    | HaltFailed
    | Error(probe: DebugProbeError)
    | BreakpointError(breakpoint: bv32)
    | ExecutionStateError
    | InvalidArgError
    | OperationCancelled
    | TargetError
    | ThreadInvalidError(thread: bv16)
    | ArgumentNotSuppliedError
    | AssertionFailed
    | CallBackError
    | CoreDisabled
    | CoreOffline
    | ExpressionEvaluationError
    | InvalidConversion
    | LoadProgramFileError
    | ResetOccurred
    | TargetAlreadyConnected
    | TargetDisconnected
    | TargetInvalid
    | TargetNotFound
    | UnrecoverableMemoryFault
    | ProgramFileError
    | NotAnELF

  /**
   * The crate-wide error, restricted to the variants this backend produces:
   * a probe failure, a timeout, a MIPS failure, an address that does not fit
   * 32 bits, and the refusal to open a core of the wrong architecture.
   */
  datatype ProbeRsError =
    | Probe(probeError: DebugProbeError)
    | Timeout
    | Mips(mipsError: MipsError)
    | AddressOutOfRange(address: u64)
    | UnableToOpenProbe(reason: string)

  /** The result of an operation that may also panic. */
  datatype Outcome<T> = Done(value: T) | Failed(error: ProbeRsError) | Panicked(message: string)

  /**
   * A MIPS failure as a crate-wide error: a probe failure becomes the crate's
   * probe error, `TargetError` becomes a timeout, and every other failure is
   * wrapped unchanged.
   */
  function FromMipsError(err: MipsError): (r: ProbeRsError)
    ensures r.Probe? <==> err.Error?
    ensures r.Timeout? <==> err.TargetError?
    ensures r.Mips? <==> !(err.Error? || err.TargetError?)
    ensures !r.AddressOutOfRange? && !r.UnableToOpenProbe?
    ensures r.Probe? ==> r.probeError == err.probe
    ensures r.Mips? ==> r.mipsError == err
  {
    match err
    case Error(e) => Probe(e)
    case TargetError => Timeout
    case _ => Mips(err)
  }

  /** Recovers the MIPS failure a crate-wide error was converted from, if it was one. */
  function ToMipsError(err: ProbeRsError): (r: Option<MipsError>)
    ensures err.Timeout? ==> r == Some(TargetError)
    ensures err.AddressOutOfRange? || err.UnableToOpenProbe? ==> r.None?
  {
    match err
    case Probe(e) => Some(Error(e))
    case Timeout => Some(TargetError)
    case Mips(m) => if m.Error? || m.TargetError? then None else Some(m)
    case _ => None
  }

  /** The conversion loses nothing: every MIPS failure is recovered from its crate-wide error. */
  lemma FromMipsErrorRoundTrip(err: MipsError)
    ensures ToMipsError(FromMipsError(err)) == Some(err)
  {
  }

  /** Conversely, every crate-wide error that names a MIPS failure is the conversion of that failure. */
  lemma ToMipsErrorRoundTrip(err: ProbeRsError)
    ensures ToMipsError(err).Some? ==> FromMipsError(ToMipsError(err).value) == err
  {
  }

  /** No two MIPS failures become the same crate-wide error. */
  lemma FromMipsErrorInjective(a: MipsError, b: MipsError)
    requires FromMipsError(a) == FromMipsError(b)
    ensures a == b
  {
    FromMipsErrorRoundTrip(a);
    FromMipsErrorRoundTrip(b);
  }
}
