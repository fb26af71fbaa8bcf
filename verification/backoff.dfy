/** The retry backoff: its ceiling, and the delays it can draw. */
module Backoff {
  import opened Protocol

  /** computeBackoffDelayMs with its random draw as a parameter. */
  function BackoffDelay(cfg: Config, n: nat, draw: real): (delay: int)
    requires n >= 1
  {
    (draw * Ceiling(cfg, n) as real).Floor
  }

  /** The transition system's retry delays are exactly those the draws in [0, 1) give. */
  lemma DelaysAreDraws(cfg: Config, n: nat, delay: nat)
    requires n >= 1
    ensures PossibleDelay(cfg, n, delay) <==> exists draw: real :: 0.0 <= draw < 1.0 && BackoffDelay(cfg, n, draw) == delay
  {
    var c := Ceiling(cfg, n);
    if delay < c {
      DrawFor(c, delay);
      assert BackoffDelay(cfg, n, delay as real / c as real) == delay;
    } else if delay == 0 {
      assert BackoffDelay(cfg, n, 0.0) == 0;
    }
    forall draw: real | 0.0 <= draw < 1.0 && BackoffDelay(cfg, n, draw) == delay
      ensures PossibleDelay(cfg, n, delay)
    {
      DrawGives(c, draw);
    }
  }

  /** The ceiling starts at the base delay, is multiplied from one attempt to the next, and never
      passes its maximum. */
  lemma CeilingGrows(cfg: Config, n: nat)
    requires n >= 1
    ensures Ceiling(cfg, 1) == Min(cfg.baseDelay, cfg.maxDelay)
    ensures Ceiling(cfg, n + 1) == Min(Ceiling(cfg, n) * cfg.multiplier, cfg.maxDelay)
  {
    var p, m := cfg.baseDelay * Power(cfg.multiplier, n - 1), cfg.multiplier;
    assert cfg.baseDelay * Power(m, n) == p * m by { assert Power(m, n) == m * Power(m, n - 1); Reorder(cfg.baseDelay, m, Power(m, n - 1)); }
    if p > cfg.maxDelay && m > 0 {
      assert p * m >= p && cfg.maxDelay * m >= cfg.maxDelay;
    }
  }

  lemma Reorder(a: nat, b: nat, c: nat)
    ensures a * (b * c) == (a * c) * b
  {
  }

  lemma DrawFor(c: nat, delay: nat)
    requires delay < c
    ensures var draw := delay as real / c as real; 0.0 <= draw < 1.0 && (draw * c as real).Floor == delay
  {
    var draw := delay as real / c as real;
    assert draw * c as real == delay as real;
  }

  lemma DrawGives(c: nat, draw: real)
    requires 0.0 <= draw < 1.0
    ensures var delay := (draw * c as real).Floor; delay == 0 || 0 <= delay < c
  {
    var r := c as real;
    NonNegative(draw, r);
    if c > 0 {
      Positive(1.0 - draw, r);
      assert (1.0 - draw) * r == r - draw * r by { Distributes(1.0, draw, r); }
      assert draw * r < r;
    } else {
      assert draw * r == 0.0;
    }
  }

  lemma NonNegative(a: real, b: real)
    requires a >= 0.0 && b >= 0.0
    ensures a * b >= 0.0
  {
  }

  lemma Positive(a: real, b: real)
    requires a > 0.0 && b > 0.0
    ensures a * b > 0.0
  {
  }

  lemma Distributes(a: real, b: real, c: real)
    ensures (a - b) * c == a * c - b * c
  {
  }
}
