/** Why the bridge exits, and the process exit code each reason stands for. */
module Termination {
  import opened Wrappers

  datatype ExitReason = Success | Reconfiguration | Failure | Unknown

  /** `From<ExitReason> for i32`. */
  function Code(r: ExitReason): (c: int)
    ensures c == 0 <==> r == Success
    ensures -3 <= c <= 0
  {
    match r
    case Success => 0
    case Failure => -1
    case Reconfiguration => -2
    case Unknown => -3
  }

  /** Different reasons give different codes, so the code identifies the reason. */
  lemma CodeInjective(a: ExitReason, b: ExitReason)
    ensures Code(a) == Code(b) <==> a == b
  {
  }

  /** The reason a code stands for, when it stands for one. */
  function ReasonOf(c: int): (r: Option<ExitReason>)
    ensures r.Some? ==> Code(r.value) == c
    ensures r.None? <==> !(-3 <= c <= 0)
  {
    if c == 0 then Some(Success)
    else if c == -1 then Some(Failure)
    else if c == -2 then Some(Reconfiguration)
    else if c == -3 then Some(Unknown)
    else None
  }

  lemma ReasonOfCode(r: ExitReason)
    ensures ReasonOf(Code(r)) == Some(r)
  {
  }

  /** `std::process::ExitCode`'s two constants. */
  datatype ExitCode = SUCCESS | FAILURE

  /** `Termination::report`. */
  function Report(r: ExitReason): (e: ExitCode)
    ensures e == SUCCESS <==> r == Success
  {
    match r
    case Success => SUCCESS
    case _ => FAILURE
  }

  /** Both views of a reason agree on whether it is a success. */
  lemma ReportAgreesWithCode(r: ExitReason)
    ensures Report(r) == SUCCESS <==> Code(r) == 0
  {
  }

  /** The status a Unix parent sees for `exit(code)`: the low eight bits. */
  function StatusByte(code: int): (b: nat)
    ensures b < 256 && (b - code) % 256 == 0
  {
    code % 256
  }

  /** The parent sees 0 for success and 255, 254 and 253 for the others, still
      pairwise different. */
  lemma StatusBytes()
    ensures StatusByte(Code(Success)) == 0
    ensures StatusByte(Code(Failure)) == 255
    ensures StatusByte(Code(Reconfiguration)) == 254
    ensures StatusByte(Code(Unknown)) == 253
  {
  }
}
