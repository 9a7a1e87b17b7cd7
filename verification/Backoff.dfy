/** How long a failing sync waits (`compute_backoff` and the failure arm of
    `run_cycle` in `src/cloud/autosync.rs`). */
module Backoff {
  import opened Math

  /** The longest duration the program can hold, in nanoseconds: 64-bit seconds
      and a fraction. */
  const MAX_DURATION: nat := 0x1_0000_0000_0000_0000 * 1_000_000_000 - 1

  const MAX_U32: nat := 0xFFFF_FFFF

  type Duration = d: nat | d <= MAX_DURATION

  function Pow2(n: nat): (p: nat)
    ensures p >= 1
  {
    if n == 0 then 1 else 2 * Pow2(n - 1)
  }

  function SaturatingMul(d: Duration, factor: nat): Duration {
    Min(d * factor, MAX_DURATION)
  }

  /** `failures.saturating_sub(1)` squeezed into 32 bits, or the largest of them
      when it does not fit, and no more than 31. */
  function Exponent(failures: int): nat {
    Min(if 0 <= failures - 1 <= MAX_U32 then failures - 1 else MAX_U32, 31)
  }

  function ComputeBackoff(base: Duration, maximum: Duration, failures: int): Duration {
    Min(SaturatingMul(base, Pow2(Exponent(failures))), maximum)
  }

  /** The ladder without any of the machine's limits. */
  function Ladder(base: nat, maximum: nat, n: nat): nat
    requires n >= 1
  {
    Min(maximum, base * Pow2(Min(n - 1, 31)))
  }

  lemma {:induction false} PowersGrow(a: nat, b: nat)
    requires a <= b
    ensures Pow2(a) <= Pow2(b)
    decreases b
  {
    if a < b { PowersGrow(a, b - 1); }
  }

  lemma MulMonotone(d: nat, a: nat, b: nat)
    requires a <= b
    ensures d * a <= d * b
  {
  }

  /** No count of failures a 64-bit counter can hold overflows on the way, and
      the shift stays within 32 bits. */
  lemma BackoffIsTheLadder(base: Duration, maximum: Duration, failures: int)
    requires failures >= 1
    ensures ComputeBackoff(base, maximum, failures) == Ladder(base, maximum, failures)
    ensures Pow2(Exponent(failures)) <= MAX_U32
  {
    PowersGrow(Exponent(failures), 31);
    assert Pow2(31) <= MAX_U32 by { PowersOfTwo(); }
  }

  lemma PowersOfTwo()
    ensures Pow2(31) == 0x8000_0000
  {
    assert Pow2(8) == 0x100;
    assert Pow2(16) == 0x1_0000;
    assert Pow2(24) == 0x100_0000;
  }

  lemma BackoffIsMonotone(base: Duration, maximum: Duration, m: int, n: int)
    requires 1 <= m <= n
    ensures ComputeBackoff(base, maximum, m) <= ComputeBackoff(base, maximum, n)
  {
    PowersGrow(Exponent(m), Exponent(n));
    MulMonotone(base, Pow2(Exponent(m)), Pow2(Exponent(n)));
  }

  lemma BackoffIsBounded(base: Duration, maximum: Duration, failures: int)
    requires base <= maximum
    ensures base <= ComputeBackoff(base, maximum, failures) <= maximum
  {
    MulMonotone(base, 1, Pow2(Exponent(failures)));
  }

  /** Each failure doubles the wait, until the ladder has 32 rungs or the wait
      reaches its maximum. */
  lemma BackoffDoubles(base: Duration, maximum: Duration, failures: int)
    requires base <= maximum && 1 <= failures
    ensures ComputeBackoff(base, maximum, failures + 1)
         == if failures < 32 then Min(maximum, 2 * ComputeBackoff(base, maximum, failures))
            else ComputeBackoff(base, maximum, failures)
  {
    BackoffIsTheLadder(base, maximum, failures);
    BackoffIsTheLadder(base, maximum, failures + 1);
    if failures < 32 {
      LadderDoubles(base, maximum, failures);
    }
  }

  lemma LadderDoubles(base: nat, maximum: nat, n: nat)
    requires 1 <= n < 32
    ensures Ladder(base, maximum, n + 1) == Min(maximum, 2 * Ladder(base, maximum, n))
  {
    var x := base * Pow2(n - 1);
    assert base * Pow2(n) == 2 * x by {
      assert Pow2(n) == Pow2(n - 1) + Pow2(n - 1);
      MulSum(base, Pow2(n - 1));
    }
  }

  lemma MulSum(d: nat, a: nat)
    ensures d * (a + a) == d * a + d * a
  {
  }

  /// A run of attempts

  /** One cycle that reached the cloud and had its outcome recorded; `refused`
      says the error was a standing refusal. */
  datatype Attempt = Attempt(start: int, end: int, failed: bool, refused: bool)

  /** How many failures in a row the trace ends with. */
  function Streak(trace: seq<Attempt>): nat {
    if trace == [] || !trace[|trace| - 1].failed then 0 else Streak(trace[..|trace| - 1]) + 1
  }

  /** What the failure at the end of `trace` waits. */
  function Wait(base: Duration, maximum: Duration, trace: seq<Attempt>): Duration
    requires trace != []
  {
    if trace[|trace| - 1].refused then maximum else ComputeBackoff(base, maximum, Streak(trace))
  }

  /** Nobody tries again before the wait of the failure before it is over. */
  ghost predicate Spaced(base: Duration, maximum: Duration, trace: seq<Attempt>) {
    && (forall i | 0 <= i < |trace| :: trace[i].start <= trace[i].end)
    && (forall i, j | 0 <= i < j < |trace| && j == i + 1 && trace[i].failed ::
          trace[j].start >= trace[i].end + Wait(base, maximum, trace[..j]))
  }

  function TotalWait(base: Duration, maximum: Duration, k: nat): nat {
    if k == 0 then 0 else TotalWait(base, maximum, k - 1) + Ladder(base, maximum, k)
  }

  lemma {:induction false} StreakOf(trace: seq<Attempt>, i: nat, k: nat)
    requires i + k <= |trace| && Streak(trace[..i]) == 0
    requires forall j | i <= j < i + k :: trace[j].failed
    ensures Streak(trace[..i + k]) == k
    decreases k
  {
    if k > 0 {
      StreakOf(trace, i, k - 1);
      assert trace[..i + k][..i + k - 1] == trace[..i + k - 1];
    }
  }

  /** `k` failures in a row keep the first of them and the attempt after the last
      at least the whole ladder apart. */
  lemma {:induction false} FailuresAreSpaced(base: Duration, maximum: Duration, trace: seq<Attempt>, i: nat, k: nat)
    requires base <= maximum && Spaced(base, maximum, trace)
    requires i + k < |trace| && Streak(trace[..i]) == 0
    requires forall j | i <= j < i + k :: trace[j].failed
    ensures trace[i + k].start - trace[i].start >= TotalWait(base, maximum, k)
    decreases k
  {
    if k > 0 {
      FailuresAreSpaced(base, maximum, trace, i, k - 1);
      StreakOf(trace, i, k);
      var last := i + k - 1;
      assert trace[..i + k][last] == trace[last];
      BackoffIsTheLadder(base, maximum, k);
      BackoffIsBounded(base, maximum, k);
      assert trace[last + 1].start >= trace[last].end + Wait(base, maximum, trace[..last + 1]);
    }
  }
}
