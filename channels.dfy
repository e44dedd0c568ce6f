/** The two channel behaviours the bridge leans on, reduced to their state:
    - a tokio `watch` channel: one latest value and a version that every send bumps;
      a receiver remembers the version it last saw and `changed()` fires when a newer
      one exists;
    - `try_send` on a bounded tokio `mpsc` channel: the value is queued when there is
      room and the receiver is alive, otherwise it is handed back and nothing waits;
    - a receiver of a tokio `broadcast` channel of capacity one, which keeps only the
      newest value and tells a receiver that fell further behind how much it missed. */
module Channels {
  import opened Wrappers
  import opened Strings

  datatype Watch<T> = Watch(value: T, version: nat)

  /** `watch::Sender::send_replace`: the value is replaced and counts as new even if equal. */
  function SendReplace<T>(w: Watch<T>, v: T): (r: Watch<T>)
    ensures r.value == v && r.version == w.version + 1
  {
    Watch(v, w.version + 1)
  }

  /** A `watch::Receiver`: the version it has marked as seen. */
  datatype WatchRx = WatchRx(seen: nat)

  /** `changed()` completes at once exactly when the receiver has not seen the latest version. */
  predicate HasChanged<T>(w: Watch<T>, rx: WatchRx) {
    w.version > rx.seen
  }

  /** `borrow_and_update()`: reads the latest value and marks it seen. */
  function BorrowAndUpdate<T>(w: Watch<T>, rx: WatchRx): (r: (T, WatchRx))
    ensures r.0 == w.value && !HasChanged(w, r.1)
  {
    (w.value, WatchRx(w.version))
  }

  datatype TrySendError = Full | Closed

  /** `mpsc::Sender::try_send` on a channel of capacity `cap`: queues `x` at the back
      when the receiver is alive and fewer than `cap` values wait; never blocks. */
  function TrySend<T>(queue: seq<T>, cap: nat, receiverAlive: bool, x: T): (r: (seq<T>, Option<TrySendError>))
    ensures r.1.None? <==> receiverAlive && |queue| < cap
    ensures r.1.None? ==> r.0 == queue + [x]
    ensures r.1.Some? ==> r.0 == queue
    ensures r.1 == Some(Closed) <==> !receiverAlive
  {
    if !receiverAlive then (queue, Some(Closed))
    else if |queue| < cap then (queue + [x], None)
    else (queue, Some(Full))
  }

  /** A sequence of sends never fills the queue beyond its capacity. */
  lemma {:induction false} TrySendAllBounded<T>(queue: seq<T>, cap: nat, alive: bool, xs: seq<T>)
    requires |queue| <= cap
    ensures |TrySendAll(queue, cap, alive, xs)| <= cap
    decreases |xs|
  {
    if |xs| > 0 {
      TrySendAllBounded(TrySend(queue, cap, alive, xs[0]).0, cap, alive, xs[1..]);
    }
  }

  /** Queue contents after trying to send each of `xs` in order. */
  function TrySendAll<T>(queue: seq<T>, cap: nat, alive: bool, xs: seq<T>): seq<T>
    decreases |xs|
  {
    if |xs| == 0 then queue else TrySendAll(TrySend(queue, cap, alive, xs[0]).0, cap, alive, xs[1..])
  }

  /** Sends that fit keep their order: with enough room every value is queued, oldest first. */
  lemma {:induction false} TrySendAllFits<T>(queue: seq<T>, cap: nat, xs: seq<T>)
    requires |queue| + |xs| <= cap
    ensures TrySendAll(queue, cap, true, xs) == queue + xs
    decreases |xs|
  {
    if |xs| > 0 {
      TrySendAllFits(queue + [xs[0]], cap, xs[1..]);
      assert queue + [xs[0]] + xs[1..] == queue + xs;
    }
  }

  /** A broadcast receiver: the position, in everything the sender has sent, of the
      next value it will read. */
  datatype BroadcastRx = BroadcastRx(next: nat)

  datatype RecvOutcome<T> = Empty | Received(value: T) | Lagged(skipped: nat)

  /** `recv()` on a broadcast channel of capacity one: with nothing new it waits; with
      one new value it reads it; further behind, it reports how many values were
      overwritten and moves to the one value still kept. */
  function BroadcastRecv<T>(history: seq<T>, rx: BroadcastRx): (r: (RecvOutcome<T>, BroadcastRx))
    requires rx.next <= |history|
    ensures r.1.next <= |history|
    ensures r.0.Empty? <==> rx.next == |history|
    ensures r.0.Received? ==> r.0.value == history[|history| - 1] && r.1.next == |history|
    ensures r.0.Lagged? ==> r.0.skipped == |history| - rx.next - 1 && r.1.next == |history| - 1
  {
    var waiting := |history| - rx.next;
    if waiting == 0 then (Empty, rx)
    else if waiting == 1 then (Received(history[rx.next]), BroadcastRx(rx.next + 1))
    else (Lagged(waiting - 1), BroadcastRx(|history| - 1))
  }

  /** After a lag the next receive reads the newest value: nothing older is ever read late. */
  lemma LagThenNewest<T>(history: seq<T>, rx: BroadcastRx)
    requires rx.next <= |history|
    requires BroadcastRecv(history, rx).0.Lagged?
    ensures BroadcastRecv(history, BroadcastRecv(history, rx).1).0 == Received(history[|history| - 1])
  {
  }

  /** Display of tokio's broadcast `RecvError::Closed`: every sender is gone and
      nothing unread is left. */
  const CLOSED_TEXT: string := "channel closed"

  /** Display of tokio's broadcast `RecvError::Lagged`. */
  function LaggedText(skipped: nat): string {
    "channel lagged by " + NatToDecimal(skipped)
  }
}
