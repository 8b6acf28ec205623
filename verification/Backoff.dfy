/** The waits between attempts: exponential backoff, truncated to whole nanoseconds, plus jitter. */
module Backoff {

  function Pow(f: real, k: nat): real {
    if k == 0 then 1.0 else f * Pow(f, k - 1)
  }

  /** A scaled interval in whole nanoseconds. Truncation and flooring agree on positive values. */
  function Truncated(interval: int, scale: real): int {
    Scaled(interval, scale).Floor
  }

  function Scaled(interval: int, scale: real): real {
    interval as real * scale
  }

  /** The wait before retry `k`, without jitter. */
  function BaseDelay(interval: int, f: real, k: nat): int {
    Truncated(interval, Pow(f, k))
  }

  /** The total of the first `n` waits. */
  function TotalBase(interval: int, f: real, n: nat): int {
    if n == 0 then 0 else TotalBase(interval, f, n - 1) + BaseDelay(interval, f, n - 1)
  }

  function Sum(xs: seq<int>): int {
    if xs == [] then 0 else Sum(xs[..|xs| - 1]) + xs[|xs| - 1]
  }

  /** The waits with their jitter draws. */
  function Delays(interval: int, f: real, draws: nat -> int, n: nat): (r: seq<int>)
    ensures |r| == n
    ensures forall k :: 0 <= k < n ==> r[k] == BaseDelay(interval, f, k) + draws(k)
  {
    seq(n, k requires 0 <= k < n => BaseDelay(interval, f, k) + draws(k))
  }

  /** A jitter source: at least zero, below the bound. */
  ghost predicate DrawsBelow(draws: nat -> int, jitter: int) {
    forall k: nat :: 0 <= draws(k) < jitter
  }

  lemma {:induction false} PowAtLeastOne(f: real, k: nat)
    requires f > 1.0
    ensures Pow(f, k) >= 1.0
    ensures k > 0 ==> Pow(f, k) >= Pow(f, k - 1)
  {
    if k > 0 {
      PowAtLeastOne(f, k - 1);
      var p := Pow(f, k - 1);
      assert f * p - p == (f - 1.0) * p;
    }
  }

  lemma TruncatedMonotone(interval: int, p: real, q: real)
    requires interval >= 0 && 1.0 <= p <= q
    ensures interval <= Truncated(interval, p) <= Truncated(interval, q)
  {
    var i := interval as real;
    assert i * p - i == i * (p - 1.0) >= 0.0;
    assert i * q - i * p == i * (q - p) >= 0.0;
  }

  /** Base delays never fall below the interval and never decrease. */
  lemma BaseDelayGrows(interval: int, f: real, k: nat)
    requires interval >= 0 && f > 1.0
    ensures BaseDelay(interval, f, k) >= interval
    ensures BaseDelay(interval, f, k + 1) >= BaseDelay(interval, f, k)
  {
    PowAtLeastOne(f, k);
    PowAtLeastOne(f, k + 1);
    TruncatedMonotone(interval, Pow(f, k), Pow(f, k + 1));
  }

  /** The closed form of a geometric sum whose next scale is `p`. */
  function ClosedSum(interval: int, p: real, f: real): real
    requires f > 1.0
  {
    interval as real * (p - 1.0) / (f - 1.0)
  }

  ghost predicate SumsTo(g: real, i: real, p: real, f: real) {
    g * (f - 1.0) == i * (p - 1.0)
  }

  /** `n` untruncated waits: the geometric sum. */
  function Geometric(interval: int, f: real, n: nat): real {
    if n == 0 then 0.0 else Geometric(interval, f, n - 1) + Scaled(interval, Pow(f, n - 1))
  }

  lemma GeometricStep(g: real, i: real, p: real, f: real)
    requires SumsTo(g, i, p, f)
    ensures SumsTo(g + i * p, i, f * p, f)
  {
    var ip := i * p;
    assert (g + ip) * (f - 1.0) == g * (f - 1.0) + ip * (f - 1.0);
    assert i * (p - 1.0) == ip - i;
    assert ip * (f - 1.0) == ip * f - ip;
    assert i * (f * p - 1.0) == ip * f - i;
  }

  lemma {:induction false} GeometricSumsTo(interval: int, f: real, n: nat)
    ensures SumsTo(Geometric(interval, f, n), interval as real, Pow(f, n), f)
  {
    if n > 0 {
      GeometricSumsTo(interval, f, n - 1);
      GeometricStep(Geometric(interval, f, n - 1), interval as real, Pow(f, n - 1), f);
    }
  }

  lemma SumsToClosed(g: real, interval: int, p: real, f: real)
    requires f > 1.0 && SumsTo(g, interval as real, p, f)
    ensures g == ClosedSum(interval, p, f)
  {
    DivideOut(g, f - 1.0, interval as real * (p - 1.0));
  }

  lemma DivideOut(g: real, d: real, n: real)
    requires d > 0.0 && g * d == n
    ensures n / d == g
  {
  }

  /** A total within `n` below its untruncated value. */
  ghost predicate Near(total: int, g: real, n: nat) {
    g - n as real <= total as real <= g && (n > 0 ==> g - n as real < total as real)
  }

  lemma NearStep(total: int, g: real, n: nat, d: int, x: real)
    requires Near(total, g, n) && x - 1.0 < d as real <= x
    ensures Near(total + d, g + x, n + 1)
  {
  }

  lemma {:induction false} TotalBaseNearGeometric(interval: int, f: real, n: nat)
    requires interval >= 0 && f > 1.0
    ensures Near(TotalBase(interval, f, n), Geometric(interval, f, n), n)
    ensures TotalBase(interval, f, n) >= n * interval
  {
    if n > 0 {
      TotalBaseNearGeometric(interval, f, n - 1);
      BaseDelayGrows(interval, f, n - 1);
      TruncatedNear(interval, Pow(f, n - 1));
      NearStep(TotalBase(interval, f, n - 1), Geometric(interval, f, n - 1), n - 1, BaseDelay(interval, f, n - 1),
               Scaled(interval, Pow(f, n - 1)));
      OneMoreTime(n, interval);
    }
  }

  lemma OneMoreTime(n: nat, x: int)
    requires n > 0
    ensures n * x == (n - 1) * x + x
  {
  }

  lemma TruncatedNear(interval: int, p: real)
    ensures Scaled(interval, p) - 1.0 < Truncated(interval, p) as real <= Scaled(interval, p)
  {
  }

  lemma {:induction false} TotalDelays(interval: int, f: real, draws: nat -> int, jitter: int, n: nat)
    requires DrawsBelow(draws, jitter)
    ensures TotalBase(interval, f, n) <= Sum(Delays(interval, f, draws, n)) <= TotalBase(interval, f, n) + n * (jitter - 1)
  {
    if n > 0 {
      TotalDelays(interval, f, draws, jitter, n - 1);
      assert Delays(interval, f, draws, n)[..n - 1] == Delays(interval, f, draws, n - 1);
      assert 0 <= draws(n - 1) < jitter;
      assert n * (jitter - 1) == (n - 1) * (jitter - 1) + (jitter - 1);
    }
  }

  /**
   k scheduled waits total more than Interval*(f^k-1)/(f-1) - k, less than that sum plus k*Jitter, and at least
   k*Interval.
   */
  lemma BackoffSumBound(interval: int, f: real, draws: nat -> int, jitter: int, k: nat)
    requires interval > 0 && f > 1.0 && jitter > 0 && DrawsBelow(draws, jitter) && k >= 1
    ensures var total := Sum(Delays(interval, f, draws, k)) as real;
            var geometric := ClosedSum(interval, Pow(f, k), f);
            && geometric - k as real < total < geometric + (k * jitter) as real
            && Sum(Delays(interval, f, draws, k)) >= k * interval
  {
    TotalDelays(interval, f, draws, jitter, k);
    TotalBaseNearGeometric(interval, f, k);
    GeometricSumsTo(interval, f, k);
    SumsToClosed(Geometric(interval, f, k), interval, Pow(f, k), f);
    Between(Sum(Delays(interval, f, draws, k)), TotalBase(interval, f, k), Geometric(interval, f, k), k, jitter);
  }

  lemma Between(total: int, base: int, geometric: real, k: nat, jitter: int)
    requires k >= 1 && base <= total <= base + k * (jitter - 1)
    requires geometric - k as real < base as real <= geometric
    ensures geometric - k as real < total as real < geometric + (k * jitter) as real
  {
    assert k * (jitter - 1) == k * jitter - k;
  }

  // ---- Does a valid retrier's schedule fit its timeout? ----

  ghost predicate AlwaysFits(interval: int, f: real, jitter: int, maxRetries: nat, timeout: int) {
    forall draws: nat -> int :: DrawsBelow(draws, jitter) ==> Sum(Delays(interval, f, draws, maxRetries)) < timeout
  }

  lemma {:induction false} LargestDraws(interval: int, f: real, jitter: int, n: nat)
    requires jitter > 0
    ensures var draws := (k: nat) => jitter - 1;
            Sum(Delays(interval, f, draws, n)) == TotalBase(interval, f, n) + n * (jitter - 1)
  {
    if n > 0 {
      var draws := (k: nat) => jitter - 1;
      LargestDraws(interval, f, jitter, n - 1);
      assert Delays(interval, f, draws, n)[..n - 1] == Delays(interval, f, draws, n - 1);
      assert n * (jitter - 1) == (n - 1) * (jitter - 1) + (jitter - 1);
    }
  }

  /** All scheduled waits fit the timeout for every jitter draw exactly if the backed-off total plus jitter does. */
  lemma AlwaysFitsIff(interval: int, f: real, jitter: int, maxRetries: nat, timeout: int)
    requires jitter > 0
    ensures AlwaysFits(interval, f, jitter, maxRetries, timeout)
      <==> TotalBase(interval, f, maxRetries) + maxRetries * (jitter - 1) < timeout
  {
    var largest := (k: nat) => jitter - 1;
    LargestDraws(interval, f, jitter, maxRetries);
    assert DrawsBelow(largest, jitter);
    if TotalBase(interval, f, maxRetries) + maxRetries * (jitter - 1) < timeout {
      forall draws: nat -> int | DrawsBelow(draws, jitter)
        ensures Sum(Delays(interval, f, draws, maxRetries)) < timeout
      {
        TotalDelays(interval, f, draws, jitter, maxRetries);
      }
    }
  }
}
