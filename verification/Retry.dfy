// Bounded retry with exponential backoff (src/backend/utils/http-retry.ts).
module Retry {

  // How one awaited call ends.
  datatype Attempt<+T, +E> = Returned(value: T) | Threw(error: E)

  predicate Again<T, E>(a: Attempt<T, E>, isRetryable: E -> bool) {
    a.Threw? && isRetryable(a.error)
  }

  // Attempt number k decides the whole call: every earlier one was retryable, and k is not, or is the last allowed.
  ghost predicate Decides<T, E>(fn: nat -> Attempt<T, E>, isRetryable: E -> bool, retries: int, k: nat) {
    && (forall j: nat :: j < k ==> Again(fn(j), isRetryable))
    && (k == 0 || k <= retries)
    && (k >= retries || !Again(fn(k), isRetryable))
  }

  lemma DecidesUnique<T, E>(fn: nat -> Attempt<T, E>, isRetryable: E -> bool, retries: int, k: nat, l: nat)
    requires Decides(fn, isRetryable, retries, k) && Decides(fn, isRetryable, retries, l)
    ensures k == l
  {
    if k < l {
      var earlier := Again(fn(k), isRetryable);
    } else if l < k {
      var earlier := Again(fn(l), isRetryable);
    }
  }

  function Pow2(k: nat): (r: nat)
    ensures r >= 1
  {
    if k == 0 then 1 else 2 * Pow2(k - 1)
  }

  function Jitter(r: real, base: int): int {
    (r * base as real).Floor
  }

  // The whole milliseconds of this share of the base.
  predicate Jittered(base: int, share: real, ms: int) {
    ms as real <= share * base as real < ms as real + 1.0
  }

  // The pause before attempt k + 1, in milliseconds.
  function Delay(base: int, random: nat -> real, k: nat): int {
    base * Pow2(k) + Jitter(random(k), base)
  }

  method Retry<T, E>(fn: nat -> Attempt<T, E>, isRetryable: E -> bool, retries: int, base: int, random: nat -> real)
    returns (result: Attempt<T, E>, attempt: nat, slept: seq<int>)
    ensures Decides(fn, isRetryable, retries, attempt) && result == fn(attempt)
    ensures |slept| == attempt && forall k :: 0 <= k < attempt ==> slept[k] == Delay(base, random, k)
    ensures forall k :: 0 <= k < attempt ==> Jittered(base, random(k), slept[k] - base * Pow2(k))
  {
    forall k: nat ensures Jittered(base, random(k), Delay(base, random, k) - base * Pow2(k)) {}
    hide Jittered;
    attempt, slept := 0, [];
    while true
      invariant attempt == 0 || attempt <= retries
      invariant forall j: nat :: j < attempt ==> Again(fn(j), isRetryable)
      invariant |slept| == attempt && forall k :: 0 <= k < attempt ==> slept[k] == Delay(base, random, k)
      decreases retries - attempt
    {
      result := fn(attempt);
      match result
      case Returned(_) => return;
      case Threw(error) =>
        if attempt >= retries || !isRetryable(error) { return; }
        var backoff := base * Pow2(attempt);
        var jitter := Jitter(random(attempt), base);
        slept := slept + [backoff + jitter];
        attempt := attempt + 1;
    }
  }

  // ----- Backoff arithmetic -----

  ghost predicate UnitInterval(random: nat -> real) {
    forall k: nat :: 0.0 <= random(k) < 1.0
  }

  lemma ScaleBounds(r: real, b: real)
    requires 0.0 <= r < 1.0 && b > 0.0
    ensures 0.0 <= r * b < b
  {
    var gap := 1.0 - r;
    assert gap * b > 0.0;
    assert gap * b == b - r * b;
  }

  lemma JitterBounds(r: real, base: int)
    requires 0.0 <= r < 1.0 && base >= 1
    ensures 0 <= Jitter(r, base) <= base - 1
  {
    ScaleBounds(r, base as real);
  }

  lemma DelayBounds(base: int, random: nat -> real, k: nat)
    requires base >= 1 && UnitInterval(random)
    ensures base * Pow2(k) <= Delay(base, random, k) <= base * Pow2(k) + base - 1
  {
    JitterBounds(random(k), base);
  }

  lemma DelayGrows(base: int, random: nat -> real, k: nat)
    requires base >= 1 && UnitInterval(random)
    ensures Delay(base, random, k) < Delay(base, random, k + 1)
  {
    DelayBounds(base, random, k);
    DelayBounds(base, random, k + 1);
    assert base * Pow2(k + 1) == base * Pow2(k) + base * Pow2(k);
    assert base * (Pow2(k) - 1) >= 0;
  }

  function Sum(xs: seq<int>): int {
    if xs == [] then 0 else Sum(xs[..|xs| - 1]) + xs[|xs| - 1]
  }

  lemma OneMorePause(base: int, p: int, n: int, total: int, pause: int)
    requires base * (p - 1) <= total <= base * (p - 1) + n * (base - 1)
    requires base * p <= pause <= base * p + base - 1
    ensures base * (2 * p - 1) <= total + pause <= base * (2 * p - 1) + (n + 1) * (base - 1)
  {
    assert base * (2 * p - 1) == base * (p - 1) + base * p;
    assert (n + 1) * (base - 1) == n * (base - 1) + (base - 1);
  }

  lemma {:induction false} TotalBounds(base: int, random: nat -> real, slept: seq<int>)
    requires base >= 1 && UnitInterval(random)
    requires forall k :: 0 <= k < |slept| ==> slept[k] == Delay(base, random, k)
    ensures base * (Pow2(|slept|) - 1) <= Sum(slept) <= base * (Pow2(|slept|) - 1) + |slept| * (base - 1)
  {
    hide Delay;
    if slept != [] {
      var n := |slept| - 1;
      TotalBounds(base, random, slept[..n]);
      DelayBounds(base, random, n);
      OneMorePause(base, Pow2(n), n, Sum(slept[..n]), slept[n]);
      assert Pow2(n + 1) == 2 * Pow2(n);
    }
  }

  // Pauses strictly grow, and k of them together last between base*(2^k - 1) and base*(2^k - 1) + k*(base - 1).
  lemma BackoffTotals(base: int, random: nat -> real, slept: seq<int>)
    requires base >= 1 && UnitInterval(random)
    requires forall k :: 0 <= k < |slept| ==> slept[k] == Delay(base, random, k)
    ensures forall k :: 1 <= k < |slept| ==> slept[k - 1] < slept[k]
    ensures base * (Pow2(|slept|) - 1) <= Sum(slept) <= base * (Pow2(|slept|) - 1) + |slept| * (base - 1)
  {
    forall k | 1 <= k < |slept| ensures slept[k - 1] < slept[k] {
      DelayGrows(base, random, k - 1);
    }
    TotalBounds(base, random, slept);
  }
}
