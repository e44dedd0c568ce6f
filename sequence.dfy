/** The Sparkplug B sequence counter of the HiveMQ message transform: every
    transformed message takes the current number and the counter moves on. */
module SparkplugSequence {
  import opened Ints

  /** The number the counter hands out `i` pulls after it stood at `x`. */
  function NthPull(x: u64, i: nat): u64 {
    (x + i) % U64_LIMIT
  }

  class Sequence {
    var next: u64

    constructor()
      ensures next == 0
    {
      next := 0;
    }

    /** `pull_seq`: returns the current number and advances (wrapping, as a release build does). */
    method Pull() returns (v: u64)
      modifies this
      ensures v == old(next)
      ensures next == WrappingIncU64(old(next)) == NthPull(old(next), 1)
    {
      v := next;
      next := WrappingIncU64(next);
    }
  }

  /** Pulling `i` times and then once more is pulling `i + 1` times. */
  lemma NthPullStep(x: u64, i: nat)
    ensures WrappingIncU64(NthPull(x, i)) == NthPull(x, i + 1)
  {
  }

  /** Consecutive pulls hand out distinct numbers until the counter has gone all
      the way round: 2^64 messages in a row never share a number. */
  lemma PullsDistinct(x: u64, i: nat, j: nat)
    requires i < j < U64_LIMIT
    ensures NthPull(x, i) != NthPull(x, j)
  {
    ModShift(x + i, j - i);
  }

  lemma ModShift(a: nat, d: nat)
    requires 0 < d < U64_LIMIT
    ensures (a + d) % U64_LIMIT != a % U64_LIMIT
  {
    var q, r := a / U64_LIMIT, a % U64_LIMIT;
    assert a == q * U64_LIMIT + r;
    if r + d < U64_LIMIT {
      assert a + d == q * U64_LIMIT + (r + d);
    } else {
      assert a + d == (q + 1) * U64_LIMIT + (r + d - U64_LIMIT);
    }
  }

  /** From a fresh counter the n-th message gets number n - 1, until the wrap. */
  lemma FreshCounterNumbers(i: nat)
    requires i < U64_LIMIT
    ensures NthPull(0, i) == i
  {
  }
}
