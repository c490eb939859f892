/** Retry delays: `computeBackoffMs` of apps/api/src/worker/backoff.ts. Base and cap are the
    configured, non-negative milliseconds; `random` is the draw of Math.random, in [0, 1). */
module Backoff {
  import opened Options

  function Pow2(k: nat): (p: nat)
    ensures p >= 1
  {
    if k == 0 then 1 else 2 * Pow2(k - 1)
  }

  function Min(x: real, y: real): real {
    if x <= y then x else y
  }

  /** `base * 2 ** k`, by repeated doubling. */
  function Doubled(base: real, k: nat): (r: real)
    ensures base >= 0.0 ==> r >= base
  {
    if k == 0 then base else 2.0 * Doubled(base, k - 1)
  }

  lemma {:induction false} DoubledIsPower(base: real, k: nat)
    ensures Doubled(base, k) == base * Pow2(k) as real
  {
    if k > 0 {
      DoubledIsPower(base, k - 1);
      assert Pow2(k) as real == 2.0 * Pow2(k - 1) as real;
    }
  }

  function Exp(base: real, cap: real, attempt: nat): real
    requires attempt >= 1
  {
    Min(Doubled(base, attempt - 1), cap)
  }

  function Jittered(exp: real, random: real): real {
    exp / 2.0 + random * (exp / 2.0)
  }

  /** None is the error thrown for a non-positive attempt. */
  function ComputeBackoffMs(base: real, cap: real, attempt: int, random: real): Option<real> {
    if attempt < 1 then None else Some(Jittered(Exp(base, cap, attempt), random))
  }

  lemma ProductNonNegative(x: real, y: real)
    requires x >= 0.0 && y >= 0.0
    ensures x * y >= 0.0
  {
  }

  lemma JitterInBand(exp: real, random: real)
    requires exp >= 0.0 && 0.0 <= random < 1.0
    ensures exp / 2.0 <= Jittered(exp, random) <= exp
  {
    var half := exp / 2.0;
    ProductNonNegative(1.0 - random, half);
    ProductNonNegative(random, half);
    assert random * half == half - (1.0 - random) * half;
  }

  lemma {:induction false} DelayInBand(base: real, cap: real, attempt: int, random: real)
    requires base >= 0.0 && cap >= 0.0 && 0.0 <= random < 1.0
    ensures ComputeBackoffMs(base, cap, attempt, random).Some? <==> attempt >= 1
    ensures attempt >= 1 ==>
              var exp := Exp(base, cap, attempt);
              exp / 2.0 <= ComputeBackoffMs(base, cap, attempt, random).value <= exp
  {
    if attempt >= 1 {
      JitterInBand(Exp(base, cap, attempt), random);
    }
  }

  lemma JitteredIs(exp: real, random: real)
    ensures Jittered(exp, random) == (exp + random * exp) / 2.0
  {
    var half := exp / 2.0;
    assert exp == half + half;
    assert random * exp == random * half + random * half;
  }

  /** The delay in closed form: the smaller of base * 2^(attempt - 1) and the cap, halved, and as much again
      in proportion to the draw. */
  lemma {:induction false} DelayIs(base: real, cap: real, attempt: nat, random: real)
    requires attempt >= 1
    ensures var doubled := base * Pow2(attempt - 1) as real;
            Exp(base, cap, attempt) == if doubled <= cap then doubled else cap
    ensures var exp := Exp(base, cap, attempt);
            ComputeBackoffMs(base, cap, attempt, random) == Some((exp + random * exp) / 2.0)
  {
    DoubledIsPower(base, attempt - 1);
    JitteredIs(Exp(base, cap, attempt), random);
    hide Jittered;
  }

  ghost predicate IsDraw(random: real) {
    0.0 <= random < 1.0
  }

  lemma JitterHits(exp: real, delay: real) returns (random: real)
    requires exp > 0.0 && exp / 2.0 <= delay < exp
    ensures IsDraw(random) && Jittered(exp, random) == delay
  {
    var half := exp / 2.0;
    random := (delay - half) / half;
    QuotientIsDraw(delay - half, half);
    assert random * half == delay - half;
  }

  lemma QuotientIsDraw(x: real, y: real)
    requires 0.0 <= x < y
    ensures IsDraw(x / y)
  {
  }

  /** Every delay from half the exponential up to, but not including, the whole is drawn by some jitter. */
  lemma {:induction false} JitterCoversBand(base: real, cap: real, attempt: nat, delay: real)
    requires attempt >= 1 && Exp(base, cap, attempt) > 0.0
    requires Exp(base, cap, attempt) / 2.0 <= delay < Exp(base, cap, attempt)
    ensures exists random :: IsDraw(random) && ComputeBackoffMs(base, cap, attempt, random) == Some(delay)
  {
    var random := JitterHits(Exp(base, cap, attempt), delay);
    assert ComputeBackoffMs(base, cap, attempt, random) == Some(delay);
  }

  lemma {:induction false} ExpNondecreasing(base: real, cap: real, m: nat, n: nat)
    requires base >= 0.0 && cap >= 0.0 && 1 <= m <= n
    ensures Exp(base, cap, m) <= Exp(base, cap, n)
    decreases n - m
  {
    if m < n {
      ExpNondecreasing(base, cap, m + 1, n);
    }
  }

  // ------------------------------------------------- delay over a whole life

  ghost predicate StrictlyIncreasing(attempts: seq<nat>) {
    forall i, j | 0 <= i < j < |attempts| :: attempts[i] < attempts[j]
  }

  /** Sum of the delays scheduled for these attempts with these draws. */
  function TotalDelay(base: real, cap: real, attempts: seq<nat>, draws: seq<real>): real
    requires |attempts| == |draws|
  {
    if |attempts| == 0 then 0.0 else
    var last := |attempts| - 1;
    var d := ComputeBackoffMs(base, cap, attempts[last], draws[last]);
    TotalDelay(base, cap, attempts[..last], draws[..last]) + (if d.Some? then d.value else 0.0)
  }

  function SumExp(base: real, cap: real, n: nat): real {
    if n == 0 then 0.0 else SumExp(base, cap, n - 1) + Exp(base, cap, n)
  }

  lemma {:induction false} SumExpNondecreasing(base: real, cap: real, m: nat, n: nat)
    requires base >= 0.0 && cap >= 0.0 && m <= n
    ensures SumExp(base, cap, m) <= SumExp(base, cap, n)
    decreases n - m
  {
    if m < n {
      SumExpNondecreasing(base, cap, m + 1, n);
    }
  }

  lemma {:induction false} SumExpClosedForm(base: real, cap: real, n: nat)
    requires base >= 0.0 && cap >= 0.0
    ensures SumExp(base, cap, n) <= n as real * cap
    ensures SumExp(base, cap, n) <= Doubled(base, n) - base
  {
    if n > 0 {
      SumExpClosedForm(base, cap, n - 1);
      assert n as real * cap == (n - 1) as real * cap + cap;
    }
  }

  /** Attempts that are numbered in strictly increasing order within 1..maxRetries never schedule
      more delay than one full set of retries. */
  lemma {:induction false} TotalDelayBounded(base: real, cap: real, maxRetries: nat, attempts: seq<nat>,
      draws: seq<real>)
    requires base >= 0.0 && cap >= 0.0 && |attempts| == |draws|
    requires StrictlyIncreasing(attempts) && forall i | 0 <= i < |attempts| :: 1 <= attempts[i] <= maxRetries
    requires forall i | 0 <= i < |draws| :: 0.0 <= draws[i] < 1.0
    ensures TotalDelay(base, cap, attempts, draws) <= SumExp(base, cap, maxRetries)
  {
    SumExpNondecreasing(base, cap, 0, maxRetries);
    if |attempts| > 0 {
      var last := |attempts| - 1;
      var n := attempts[last];
      TotalDelayBounded(base, cap, n - 1, attempts[..last], draws[..last]);
      DelayInBand(base, cap, n, draws[last]);
      SumExpNondecreasing(base, cap, n, maxRetries);
    }
  }

  /** The same budget in closed form: every retry at the cap, or every doubling uncapped. */
  lemma {:induction false} RetryBudget(base: real, cap: real, maxRetries: nat)
    requires base >= 0.0 && cap >= 0.0
    ensures SumExp(base, cap, maxRetries) <= maxRetries as real * cap
    ensures SumExp(base, cap, maxRetries) <= base * (Pow2(maxRetries) as real - 1.0)
  {
    SumExpClosedForm(base, cap, maxRetries);
    DoubledIsPower(base, maxRetries);
    assert base * (Pow2(maxRetries) as real - 1.0) == base * Pow2(maxRetries) as real - base;
  }
}
