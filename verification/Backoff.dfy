/**
 Exponential backoff with jitter. The repository holds three copies of this arithmetic
 (PostgreSQL operations, connection tests, Vault calls); they differ only in the name of
 the 60 s cap. Durations are whole nanoseconds.

 The floating-point product base * 2^(attempt-1) is exact while base < 2^53 and the
 product stays below 2^63; `Defined` is that region.
 */
module Backoff {
  import opened Basics

  const SECOND: nat := 1_000_000_000
  const MAX_RETRY_DELAY: nat := 60 * SECOND

  /** The region in which the float-to-integer conversion of the delay is exact. */
  predicate Defined(base: nat, attempt: nat) {
    attempt >= 1 && base < 0x20_0000_0000_0000 && base * Pow2(attempt - 1) < 0x8000_0000_0000_0000
  }

  function Capped(base: nat, attempt: nat, maxDelay: nat): nat
    requires attempt >= 1
  {
    var delay := base * Pow2(attempt - 1);
    if delay > maxDelay then maxDelay else delay
  }

  /** `draw` is the random source: None when it fails, otherwise any number, reduced to the range asked for. */
  method CalculateBackoff(base: nat, attempt: nat, maxDelay: nat, draw: Option<nat>) returns (delay: nat)
    requires Defined(base, attempt)
    ensures Capped(base, attempt, maxDelay) <= delay
    ensures delay <= Capped(base, attempt, maxDelay) + Capped(base, attempt, maxDelay) / 4
    ensures draw.None? ==> delay == Capped(base, attempt, maxDelay)
    ensures forall jitter: nat :: draw == Some(jitter) && jitter <= Capped(base, attempt, maxDelay) / 4
                                  ==> delay == Capped(base, attempt, maxDelay) + jitter
  {
    delay := base * Pow2(attempt - 1);
    if delay > maxDelay {
      delay := maxDelay;
    }
    var maxJitter := delay / 4 + 1;
    match draw
    case None =>
    case Some(n) =>
      var jitter := RandInt(n, maxJitter);
      delay := delay + jitter;
  }

  /** A random number below the bound, from whatever the source drew. */
  function RandInt(draw: nat, bound: nat): (r: nat)
    requires bound > 0
    ensures r < bound
    ensures draw < bound ==> r == draw
  {
    draw % bound
  }

  lemma TimesMonotone(x: nat, p: nat, q: nat)
    requires p <= q
    ensures x * p <= x * q
  {
  }

  lemma CappedIsMonotone(base: nat, a: nat, b: nat, maxDelay: nat)
    requires 1 <= a <= b
    ensures Capped(base, a, maxDelay) <= Capped(base, b, maxDelay)
  {
    Pow2Monotone(a - 1, b - 1);
    TimesMonotone(base, Pow2(a - 1), Pow2(b - 1));
  }

  lemma DefinedIsMonotone(base: nat, a: nat, b: nat)
    requires 1 <= a <= b && Defined(base, b)
    ensures Defined(base, a)
  {
    Pow2Monotone(a - 1, b - 1);
    TimesMonotone(base, Pow2(a - 1), Pow2(b - 1));
  }

  /** The longest pause after the given attempt. */
  function Longest(base: nat, attempt: nat): nat
    requires attempt >= 1
  {
    Capped(base, attempt, MAX_RETRY_DELAY) + Capped(base, attempt, MAX_RETRY_DELAY) / 4
  }

  /** The longest total of the first `waits` pauses. */
  function MaxWait(base: nat, waits: nat): nat {
    if waits == 0 then 0 else MaxWait(base, waits - 1) + Longest(base, waits)
  }

  lemma MaxWaitIsMonotone(base: nat, m: nat, n: nat)
    requires m <= n
    ensures MaxWait(base, m) <= MaxWait(base, n)
    decreases n
  {
    if m < n {
      MaxWaitIsMonotone(base, m, n - 1);
    }
  }

  lemma GeometricStep(base: nat, p: nat, capped: nat, before: nat)
    requires capped <= base * p && p >= 1
    requires 4 * before <= 5 * base * (p - 1)
    ensures 4 * (before + capped + capped / 4) <= 5 * base * (2 * p - 1)
  {
    var u := base * p;
    assert base * (p - 1) == u - base;
    assert base * (2 * p - 1) == 2 * u - base;
    assert 5 * base * (p - 1) == 5 * (base * (p - 1));
    assert 5 * base * (2 * p - 1) == 5 * (base * (2 * p - 1));
  }

  /** Closed form: at most 75 s a pause, and at most 5/4 of the uncapped geometric sum. */
  lemma {:induction false} TotalWaitBound(base: nat, waits: nat)
    ensures MaxWait(base, waits) <= 75 * SECOND * waits
    ensures 4 * MaxWait(base, waits) <= 5 * base * (Pow2(waits) - 1)
  {
    if waits > 0 {
      TotalWaitBound(base, waits - 1);
      GeometricStep(base, Pow2(waits - 1), Capped(base, waits, MAX_RETRY_DELAY), MaxWait(base, waits - 1));
    }
  }

  function Sum(delays: seq<nat>): nat {
    if delays == [] then 0 else Sum(delays[..|delays| - 1]) + delays[|delays| - 1]
  }

  /** Any sequence of delays `CalculateBackoff` can return for attempts 1, 2, 3, ... stays within the total. */
  lemma {:induction false} WaitingIsBounded(base: nat, delays: seq<nat>)
    requires forall i :: 0 <= i < |delays| ==> delays[i] <= Longest(base, i + 1)
    ensures Sum(delays) <= MaxWait(base, |delays|)
  {
    if delays != [] {
      var n := |delays| - 1;
      assert forall i :: 0 <= i < n ==> delays[..n][i] == delays[i];
      WaitingIsBounded(base, delays[..n]);
    }
  }
}
