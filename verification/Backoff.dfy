/** Reconnection delays: the closed form of the browser manager and the cap-then-double recurrence of the daemon
    client. */
module Backoff {

  function Pow2(n: nat): (p: nat)
    ensures p >= 1
  {
    if n == 0 then 1 else 2 * Pow2(n - 1)
  }

  function Min(a: int, b: int): int { if a < b then a else b }

  /** `min(base * 2^n, cap)` */
  function ClosedForm(base: int, cap: int, n: nat): int {
    Min(base * Pow2(n), cap)
  }

  /** The delay after `n` retries when each retry doubles it and caps the result. */
  function Iterated(base: int, cap: int, n: nat): int {
    if n == 0 then base else Min(2 * Iterated(base, cap, n - 1), cap)
  }

  /** Doubling and capping commute. */
  lemma DoubleCap(x: int, cap: int)
    requires x >= 0 && cap >= 0
    ensures Min(2 * Min(x, cap), cap) == Min(2 * x, cap)
  {
  }

  lemma DoublePower(base: int, n: nat)
    requires n > 0
    ensures base * Pow2(n) == 2 * (base * Pow2(n - 1))
  {
  }

  lemma ProductIsNotNegative(base: int, p: nat)
    requires base >= 0
    ensures base * p >= 0
  {
  }

  /** The two agree whenever the first delay is positive and within the cap. */
  lemma {:induction false} IteratedIsClosedForm(base: int, cap: int, n: nat)
    requires 0 <= base <= cap
    ensures Iterated(base, cap, n) == ClosedForm(base, cap, n)
  {
    if n > 0 {
      IteratedIsClosedForm(base, cap, n - 1);
      ProductIsNotNegative(base, Pow2(n - 1));
      DoublePower(base, n);
      DoubleCap(base * Pow2(n - 1), cap);
    }
  }
}
