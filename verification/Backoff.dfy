/** Exponential backoff with jitter in 64-bit arithmetic (src/reconnect.rs, `backoff_delay`). */
module Backoff {

  const U32: nat := 0x1_0000_0000
  const U64: nat := 0x1_0000_0000_0000_0000

  function Min(a: nat, b: nat): nat {
    if a <= b then a else b
  }

  function Pow2(n: nat): nat {
    if n == 0 then 1 else 2 * Pow2(n - 1)
  }

  /** `saturating_mul` on u64 */
  function SaturatingMul(a: nat, b: nat): nat {
    Min(a * b, U64 - 1)
  }

  /** The window as computed: the shift is clamped to 62, the product saturates, the cap comes last. */
  function Window(baseMs: nat, capMs: nat, attempt: nat): nat {
    Min(capMs, SaturatingMul(baseMs, Pow2(Min(attempt, 62))))
  }

  /** The window as documented: `min(cap, base * 2^n)` over the integers. */
  function Documented(baseMs: nat, capMs: nat, attempt: nat): nat {
    Min(capMs, baseMs * Pow2(attempt))
  }

  lemma {:induction false} Pow2Grows(m: nat, n: nat)
    requires m <= n
    ensures 1 <= Pow2(m) <= Pow2(n) && (m < n ==> 2 * Pow2(m) <= Pow2(n))
    decreases n
  {
    if m < n {
      Pow2Grows(m, n - 1);
    } else if n > 0 {
      Pow2Grows(m - 1, n - 1);
    }
  }

  lemma {:induction false} TimesGrows(a: nat, b: nat, c: nat)
    requires b <= c
    ensures a * b <= a * c
  {
  }

  /** The clamped, saturating arithmetic gives the documented window exactly when the clamp does not bite:
      up to exponent 62, or for a zero base, or when the cap is reached by then. */
  lemma {:induction false} WindowIsDocumentedIff(baseMs: nat, capMs: nat, attempt: nat)
    requires baseMs < U64 && capMs < U64
    ensures Window(baseMs, capMs, attempt) == Documented(baseMs, capMs, attempt) <==>
            (attempt <= 62 || baseMs == 0 || capMs <= baseMs * Pow2(62))
  {
    if attempt > 62 {
      ClampBites(baseMs, capMs, 62, attempt);
    }
  }

  /** Past the clamp the product is at least twice what is computed, so the two agree only at the cap. */
  lemma {:induction false} ClampBites(baseMs: nat, capMs: nat, clamp: nat, attempt: nat)
    requires capMs < U64 && clamp < attempt
    ensures Min(capMs, SaturatingMul(baseMs, Pow2(clamp))) == Min(capMs, baseMs * Pow2(attempt)) <==>
            (baseMs == 0 || capMs <= baseMs * Pow2(clamp))
  {
    if baseMs > 0 {
      Pow2Grows(clamp, attempt);
      Doubled(baseMs, Pow2(clamp), Pow2(attempt));
    }
  }

  lemma {:induction false} Doubled(a: nat, b: nat, c: nat)
    requires a > 0 && b > 0 && 2 * b <= c
    ensures 0 < a * b && 2 * (a * b) <= a * c
  {
    TimesGrows(a, 2 * b, c);
    TimesGrows(a, 1, b);
    assert a * (2 * b) == 2 * (a * b);
  }

  /** More attempts never shrink the window, it never exceeds cap or product, and once at the cap it stays there. */
  lemma {:induction false} WindowGrowsToCap(baseMs: nat, capMs: nat, m: nat, n: nat)
    requires m <= n && capMs < U64
    ensures Window(baseMs, capMs, m) <= Window(baseMs, capMs, n) <= capMs
    ensures Window(baseMs, capMs, n) <= baseMs * Pow2(n)
    ensures Window(baseMs, capMs, m) == capMs ==> Window(baseMs, capMs, n) == capMs
  {
    Pow2Grows(Min(m, 62), Min(n, 62));
    TimesGrows(baseMs, Pow2(Min(m, 62)), Pow2(Min(n, 62)));
    Pow2Grows(Min(n, 62), n);
    TimesGrows(baseMs, Pow2(Min(n, 62)), Pow2(n));
  }

  /** The mixing step, in wrapping 64-bit arithmetic. */
  function Mixed(seed: bv64, attempt: bv64): bv64 {
    (seed ^ (attempt * 0x9e37_79b9_7f4a_7c15)) + 0x6c62_272e_07bb_0142
  }

  /** The delay asked for, whatever the clock seeds it with: below the window, zero only for an empty one or by
      chance. */
  function Delay(baseMs: nat, capMs: nat, attempt: nat, seed: bv64): (ms: nat)
    requires attempt < U32
    ensures Window(baseMs, capMs, attempt) == 0 ==> ms == 0
    ensures Window(baseMs, capMs, attempt) > 0 ==> ms < Window(baseMs, capMs, attempt)
  {
    var window := Window(baseMs, capMs, attempt);
    if window == 0 then 0 else (Mixed(seed, attempt as bv64) as nat) % window
  }
}
