/** Retry delays. */
module Backoffs {
  import opened Types

  /** Any configured mode other than "fixed" backs off exponentially. */
  datatype Backoff = Exponential | Fixed

  function Pow2(n: nat): (p: nat)
    ensures p >= 1
  {
    if n == 0 then 1 else 2 * Pow2(n - 1)
  }

  function RetryDelay(attempts: nat, mode: Backoff, base: Time): Time {
    var a := if attempts < 1 then 1 else attempts;
    if mode == Fixed then base else base * Pow2(a - 1)
  }

  /** The sum of the delays before retries 1 to n. */
  function TotalDelay(n: nat, mode: Backoff, base: Time): Time {
    if n == 0 then 0 else TotalDelay(n - 1, mode, base) + RetryDelay(n, mode, base)
  }

  lemma OneMore(n: nat, p: nat, base: Time)
    ensures base * (p - 1) + base * p == base * (2 * p - 1)
    ensures (n - 1) * base + base == n * base
  {
  }

  lemma Doubles(n: nat)
    requires n > 0
    ensures Pow2(n) == 2 * Pow2(n - 1)
  {
  }

  /** Exponential delays add up to base * (2^n - 1), fixed ones to n * base. */
  lemma {:induction false} TotalDelayClosed(n: nat, mode: Backoff, base: Time)
    ensures mode == Exponential ==> TotalDelay(n, mode, base) == base * (Pow2(n) - 1)
    ensures mode == Fixed ==> TotalDelay(n, mode, base) == n * base
  {
    hide Pow2;
    if n == 0 {
      NoDelay(mode, base);
    } else {
      TotalDelayClosed(n - 1, mode, base);
      Doubles(n);
      OneMore(n, Pow2(n - 1), base);
    }
  }

  lemma NoDelay(mode: Backoff, base: Time)
    ensures TotalDelay(0, mode, base) == 0 && Pow2(0) == 1
  {
  }

  lemma {:induction false} Pow2Monotone(m: nat, n: nat)
    requires m <= n
    ensures Pow2(m) <= Pow2(n)
  {
    if m < n {
      Pow2Monotone(m, n - 1);
    }
  }

  lemma RetryDelayNonNegative(attempts: nat, mode: Backoff, base: Time)
    requires base >= 0
    ensures RetryDelay(attempts, mode, base) >= 0
  {
    var a := if attempts < 1 then 1 else attempts;
    assert base * Pow2(a - 1) >= 0;
  }
}
