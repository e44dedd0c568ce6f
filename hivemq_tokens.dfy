/** The HiveMQ adapter's delivery token: the id of the message it was issued for
    and the handle of the publish task that waits for the acknowledgement. */
module HiveMQTokens {
  import opened Wrappers
  import opened Ints
  import opened AdapterCore
  import opened HiveMQError

  /** `task` names the publish task whose handle the token holds. */
  datatype DeliveryToken = DeliveryToken(msgId: u32, task: nat)

  /** What awaiting a task's handle gives: the task's own result, or a join
      error (the task panicked or was cancelled) with its display text. */
  datatype JoinOutcome = Joined(result: Result<u32, SpecialHiveMQError>) | JoinFailed(text: string)

  /** `wait_for_ack`: a successful task's message id is passed through; a join
      error and a task error both become a delivery error that names the token's
      own message and carries the error's text. */
  function WaitForAck(token: DeliveryToken, j: JoinOutcome): (r: Result<u32, DeliveryError>)
    ensures r.Ok? <==> j.Joined? && j.result.Ok?
    ensures r.Ok? ==> r.value == j.result.value
    ensures r.Err? ==> r.error.msgId == token.msgId
    ensures j.JoinFailed? ==> r == Err(DeliveryError(token.msgId, j.text))
    ensures j.Joined? && j.result.Err? ==> r == Err(DeliveryError(token.msgId, HiveMQError.ErrorText(j.result.error)))
  {
    match j
    case JoinFailed(t) => Err(DeliveryError(token.msgId, t))
    case Joined(Ok(id)) => Ok(id)
    case Joined(Err(e)) => Err(DeliveryError(token.msgId, HiveMQError.ErrorText(e)))
  }

  /** A failed delivery can be traced back to its cause: two failures of the same
      token with the same reason come from the same task error. */
  lemma TaskErrorRecoverable(token: DeliveryToken, a: SpecialHiveMQError, b: SpecialHiveMQError)
    ensures WaitForAck(token, Joined(Err(a))) == WaitForAck(token, Joined(Err(b))) <==> a == b
  {
    ErrorTextInjective(a, b);
  }
}
