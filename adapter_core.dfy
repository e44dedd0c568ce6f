/** The vocabulary every cloud adapter shares: the adapter-level error values and
    their display texts, and the connection tokens, which are thin wrappers that
    forward every poll to the future they hold. */
module AdapterCore {
  import opened Ints

  // ---------------------------------------------------------------------------
  // Error values and their Display texts

  /** `Error`: the one failure an adapter can report while being built. */
  datatype Error = Initialization(detail: string)

  function ErrorText(e: Error): string {
    "initialization " + e.detail
  }

  /** A publish that did not end in an acknowledgement, naming the message it was for. */
  datatype DeliveryError = DeliveryError(msgId: u32, reason: string)

  datatype ConnectionError = Success | Failure(reason: string)

  const FAILURE_PREFIX: string := "connection failed due to: ["

  function ConnectionErrorText(e: ConnectionError): string {
    match e
    case Success => "connection success"
    case Failure(s) => FAILURE_PREFIX + s + "]"
  }

  /** Two connection errors display the same text exactly when they are the same
      value: the failure reason can be read back from the text. */
  lemma ConnectionErrorTextInjective(a: ConnectionError, b: ConnectionError)
    ensures ConnectionErrorText(a) == ConnectionErrorText(b) <==> a == b
  {
    if ConnectionErrorText(a) == ConnectionErrorText(b) {
      var t := ConnectionErrorText(a);
      if a.Failure? && b.Failure? {
        var x, y := a.reason, b.reason;
        assert |x| == |y|;
        assert x == t[|FAILURE_PREFIX|..|t| - 1];
        assert y == t[|FAILURE_PREFIX|..|t| - 1];
      }
    }
  }

  /** Why an established connection ended. */
  datatype ConnectionLost = ManualDisconnect | Timeout | Uncategorized(detail: string)

  function ConnectionLostText(l: ConnectionLost): string {
    match l
    case ManualDisconnect => "manual disconnect"
    case Timeout => "timed out"
    case Uncategorized(_) => "unknown"
  }

  /** The reason without the detail an uncategorised loss carries. */
  datatype LostKind = KManual | KTimeout | KUncategorized

  function KindOf(l: ConnectionLost): LostKind {
    match l
    case ManualDisconnect => KManual
    case Timeout => KTimeout
    case Uncategorized(_) => KUncategorized
  }

  /** The display text tells the three reasons apart and nothing more: the detail of
      an uncategorised loss never appears in it. */
  lemma ConnectionLostTextIsKind(a: ConnectionLost, b: ConnectionLost)
    ensures ConnectionLostText(a) == ConnectionLostText(b) <==> KindOf(a) == KindOf(b)
  {
    var ta, tb := ConnectionLostText(a), ConnectionLostText(b);
    if KindOf(a) != KindOf(b) {
      assert ta[0] != tb[0] || |ta| != |tb|;
    }
  }

  // ---------------------------------------------------------------------------
  // Futures and the connection tokens

  datatype Poll<T> = Pending | Ready(value: T)

  /** A future that answers `Pending` to its first `pendingPolls` polls and then
      becomes ready with `output`. */
  datatype Future<T> = Future(pendingPolls: nat, output: T)

  function PollFuture<T>(f: Future<T>): (r: (Poll<T>, Future<T>))
    ensures r.0.Ready? <==> f.pendingPolls == 0
    ensures r.0.Ready? ==> r.0.value == f.output
    ensures r.1.output == f.output
  {
    if f.pendingPolls == 0 then (Ready(f.output), f)
    else (Pending, Future(f.pendingPolls - 1, f.output))
  }

  /** `TokenConnection<F>`: the result of a connection attempt, to be awaited. */
  datatype TokenConnection<T> = TokenConnection(future: Future<T>)

  /** `TokenDisconnect<F>`: the result of a disconnect request, to be awaited. */
  datatype TokenDisconnect<T> = TokenDisconnect(future: Future<T>)

  /** `poll` on a connection token: projects to the wrapped future and polls it. */
  function PollConnection<T>(t: TokenConnection<T>): (Poll<T>, TokenConnection<T>) {
    var (p, f) := PollFuture(t.future);
    (p, TokenConnection(f))
  }

  function PollDisconnect<T>(t: TokenDisconnect<T>): (Poll<T>, TokenDisconnect<T>) {
    var (p, f) := PollFuture(t.future);
    (p, TokenDisconnect(f))
  }

  /** `.await` on a connection token: polls until ready. The token resolves to
      exactly what the wrapped future resolves to, after exactly as many polls. */
  function AwaitConnection<T>(t: TokenConnection<T>): (r: (T, nat))
    ensures r.0 == t.future.output
    ensures r.1 == t.future.pendingPolls + 1
    decreases t.future.pendingPolls
  {
    var (p, t') := PollConnection(t);
    match p
    case Ready(v) => (v, 1)
    case Pending =>
      var (v, n) := AwaitConnection(t');
      (v, n + 1)
  }

  /** `.await` on a disconnect token: as for the connection token. */
  function AwaitDisconnect<T>(t: TokenDisconnect<T>): (r: (T, nat))
    ensures r.0 == t.future.output
    ensures r.1 == t.future.pendingPolls + 1
    decreases t.future.pendingPolls
  {
    var (p, t') := PollDisconnect(t);
    match p
    case Ready(v) => (v, 1)
    case Pending =>
      var (v, n) := AwaitDisconnect(t');
      (v, n + 1)
  }
}
