/** The reconnect delay both connection tasks use: doubling from 2 s, capped at 60 s. */
module Backoff {

  const INITIAL_DELAY: nat := 2
  const MAX_DELAY: nat := 60

  /** `(delay * 2).min(MAX_RECONNECT_DELAY)`. */
  function Grow(delay: nat): nat {
    if delay * 2 < MAX_DELAY then delay * 2 else MAX_DELAY
  }

  function Pow2(n: nat): nat {
    if n == 0 then 1 else 2 * Pow2(n - 1)
  }

  /** min(2^(k+1), 60): the delay once it has grown `k` times since it was last reset. */
  function DelayAfter(k: nat): nat {
    if Pow2(k + 1) < MAX_DELAY then Pow2(k + 1) else MAX_DELAY
  }

  lemma GrowStep(k: nat)
    ensures DelayAfter(0) == INITIAL_DELAY
    ensures Grow(DelayAfter(k)) == DelayAfter(k + 1)
  {
    assert Pow2(1) == 2 * Pow2(0);
    assert Pow2(k + 2) == 2 * Pow2(k + 1);
  }

  /** The total time waited by the first `k` delays after a reset. */
  function TotalWait(k: nat): nat {
    if k == 0 then 0 else TotalWait(k - 1) + DelayAfter(k - 1)
  }

  lemma {:induction false} PowFromFive(k: nat)
    requires k >= 5
    ensures Pow2(k + 1) >= 64
  {
    if k == 5 {
      assert Pow2(6) == 2 * Pow2(5) && Pow2(5) == 2 * Pow2(4) && Pow2(4) == 2 * Pow2(3);
      assert Pow2(3) == 2 * Pow2(2) && Pow2(2) == 2 * Pow2(1) && Pow2(1) == 2 * Pow2(0);
    } else {
      PowFromFive(k - 1);
    }
  }

  /** 2 + 4 + ... = 2^(k+1) - 2 until the cap, 62 s after five delays, then a minute each. */
  lemma {:induction false} TotalWaitClosedForm(k: nat)
    ensures TotalWait(k) == if k <= 5 then Pow2(k + 1) - 2 else 62 + 60 * (k - 5)
  {
    assert Pow2(6) == 64 && Pow2(5) == 32 && Pow2(4) == 16 && Pow2(3) == 8 && Pow2(2) == 4 && Pow2(1) == 2;
    if k > 0 {
      TotalWaitClosedForm(k - 1);
      if k > 5 {
        PowFromFive(k - 1);
      }
    }
  }
}
