/** The bridge's top-level error, its display texts, and how `main` turns the
    outcome of a run into an exit code. */
module BridgeError {
  import opened Wrappers
  import opened Termination

  datatype RustyBridgeError = Initialization(detail: string) | EdgeReporter(detail: string) | Reserved

  const INIT_PREFIX: string := "initialization failed because ["
  const EDGE_PREFIX: string := "edge reporter: ["

  /** The `Display` texts. */
  function ErrorText(e: RustyBridgeError): string {
    match e
    case Initialization(s) => INIT_PREFIX + s + "]"
    case EdgeReporter(s) => EDGE_PREFIX + s + "]"
    case Reserved => "reserved"
  }

  /** The text names the kind of error and keeps its detail, so it identifies the error. */
  lemma ErrorTextInjective(a: RustyBridgeError, b: RustyBridgeError)
    requires ErrorText(a) == ErrorText(b)
    ensures a == b
  {
    var t := ErrorText(a);
    if a.Initialization? || a.EdgeReporter? {
      assert t[0] == (if a.Initialization? then 'i' else 'e');
    }
    if b.Initialization? || b.EdgeReporter? {
      assert t[0] == (if b.Initialization? then 'i' else 'e');
    }
    if a.Reserved? || b.Reserved? {
      assert |t| == 8 ==> a.Reserved? && b.Reserved?;
    }
    if a.Initialization? && b.Initialization? {
      assert t[|INIT_PREFIX|..|t| - 1] == a.detail;
      assert t[|INIT_PREFIX|..|t| - 1] == b.detail;
    }
    if a.EdgeReporter? && b.EdgeReporter? {
      assert t[|EDGE_PREFIX|..|t| - 1] == a.detail;
      assert t[|EDGE_PREFIX|..|t| - 1] == b.detail;
    }
  }

  /** `From<RustyBridgeError> for ExitReason`. */
  function IntoExitReason(e: RustyBridgeError): (r: ExitReason)
    ensures r == Failure <==> e.Initialization?
    ensures r == Unknown <==> !e.Initialization?
  {
    match e
    case Initialization(_) => Failure
    case _ => Unknown
  }

  /** `exit` in `main`: the code the process exits with for the outcome of a run. */
  function ExitWith(result: Result<(), RustyBridgeError>): (code: int)
    ensures code == 0 <==> result.Ok?
    ensures result.Err? && result.error.Initialization? ==> code == -1
    ensures result.Err? && !result.error.Initialization? ==> code == -3
  {
    match result
    case Ok(_) => Code(Success)
    case Err(e) => Code(IntoExitReason(e))
  }

  /** A run never exits with the reconfiguration code -2. */
  lemma NeverReconfiguration(result: Result<(), RustyBridgeError>)
    ensures ExitWith(result) != Code(Reconfiguration)
    ensures ReasonOf(ExitWith(result)).Some?
  {
  }
}
