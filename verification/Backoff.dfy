/** The delay before a submission retry, in the source's 32-bit shift and saturating duration arithmetic. */
module Backoff {

  const U32_MAX: nat := 0xFFFF_FFFF
  /** The largest duration: 2^64 - 1 seconds and 999,999,999 nanoseconds. */
  const DURATION_MAX: nat := 0xFFFF_FFFF_FFFF_FFFF * 1_000_000_000 + 999_999_999
  const MAX_SUBMISSION_BACKOFF: nat := 30 * 1_000_000_000

  function Pow2(n: nat): nat {
    if n == 0 then 1 else 2 * Pow2(n - 1)
  }

  function Min(a: nat, b: nat): nat {
    if a <= b then a else b
  }

  /** `1u32.checked_shl(shift)`, saturating: a shift by 32 or more is refused. */
  function ShiftOne(shift: nat): nat {
    if shift < 32 then Pow2(shift) else U32_MAX
  }

  /** Nanoseconds to wait before retry `retryIndex` (1 is the first retry). */
  function Delay(retryIndex: nat, base: nat): nat {
    if base == 0 || retryIndex == 0 then 0
    else Min(Min(base * ShiftOne(retryIndex - 1), DURATION_MAX), MAX_SUBMISSION_BACKOFF)
  }

  lemma {:induction false} Pow2Monotone(a: nat, b: nat)
    requires a <= b
    ensures Pow2(a) <= Pow2(b)
  {
    if a < b { Pow2Monotone(a, b - 1); }
  }

  lemma Pow2Of32()
    ensures Pow2(31) == 0x8000_0000 && Pow2(32) == 0x1_0000_0000
  {
    assert Pow2(8) == 256;
    assert Pow2(16) == 65536;
    assert Pow2(24) == 0x100_0000;
    assert Pow2(31) == 0x8000_0000;
  }

  lemma ScaleMonotone(base: nat, a: nat, b: nat)
    requires a <= b
    ensures base * a <= base * b
  {
  }

  /** What the delay is meant to be: the base doubled at each retry after the first, at most 30 seconds. */
  function Doubled(retryIndex: nat, base: nat): nat
    requires retryIndex > 0
  {
    if base * Pow2(retryIndex - 1) <= 30_000_000_000 then base * Pow2(retryIndex - 1) else 30_000_000_000
  }

  /** The shift saturates one short of 2^32, so a base of 1 to 6 nanoseconds is never doubled that far: the
      delay is exact at every retry if and only if the base is zero or at least 7 nanoseconds. */
  lemma ExactIff(base: nat)
    ensures (forall k: nat :: k > 0 ==> Delay(k, base) == Doubled(k, base)) <==> base == 0 || base >= 7
  {
    Pow2Of32();
    if base == 0 || base >= 7 {
      forall k: nat | k > 0
        ensures Delay(k, base) == Doubled(k, base)
      {
        if k > 32 && base > 0 {
          Pow2Monotone(32, k - 1);
          ScaleMonotone(base, U32_MAX, Pow2(k - 1));
        }
      }
    } else {
      assert Delay(33, base) != Doubled(33, base);
    }
  }

  /** Whatever the base, later retries wait no less, and no retry waits more than 30 seconds. */
  lemma NonDecreasingAndCapped(j: nat, k: nat, base: nat)
    requires j <= k
    ensures Delay(j, base) <= Delay(k, base) <= 30_000_000_000
  {
    if base > 0 && j > 0 {
      Pow2Of32();
      Pow2Monotone(j - 1, k - 1);
      if j <= 32 { Pow2Monotone(j - 1, 31); }
      assert ShiftOne(j - 1) <= ShiftOne(k - 1);
      ScaleMonotone(base, ShiftOne(j - 1), ShiftOne(k - 1));
    }
  }

  datatype RuntimeOptions = RuntimeOptions(maxSubmissionAttempts: nat, submissionBackoff: nat)

  /** Options from the parsed settings: attempts floored at one, the base given in milliseconds. */
  function OptionsFrom(attempts: nat, backoffMillis: nat): RuntimeOptions {
    RuntimeOptions(if attempts < 1 then 1 else attempts, backoffMillis * 1_000_000)
  }

  /** Every millisecond setting doubles exactly, and every attempts setting allows an attempt. */
  lemma MillisecondSettingsAreExact(attempts: nat, backoffMillis: nat, k: nat)
    requires k > 0
    ensures Delay(k, OptionsFrom(attempts, backoffMillis).submissionBackoff)
         == Doubled(k, backoffMillis * 1_000_000)
    ensures OptionsFrom(attempts, backoffMillis).maxSubmissionAttempts == if attempts == 0 then 1 else attempts
  {
    ExactIff(backoffMillis * 1_000_000);
  }

  /** The total wait of a submission that makes `calls` enqueue calls. */
  function TotalDelay(calls: nat, base: nat): nat {
    if calls <= 1 then 0 else TotalDelay(calls - 1, base) + Delay(calls - 1, base)
  }

  function Sum(terms: seq<nat>): nat {
    if terms == [] then 0 else terms[0] + Sum(terms[1..])
  }

  lemma {:induction false} SumSnoc(terms: seq<nat>, term: nat)
    ensures Sum(terms + [term]) == Sum(terms) + term
  {
    if terms == [] {
      assert [] + [term] == [term];
    } else {
      assert (terms + [term])[1..] == terms[1..] + [term];
      SumSnoc(terms[1..], term);
    }
  }

  /** A submission of `n + 1` calls waits before each of its retries 1 to `n`, and not before its first call: for the
      base, twice the base, four times the base and so on, each at most 30 seconds, if the base is one that doubles. */
  lemma {:induction false} WaitIsSumOfDelays(n: nat, base: nat)
    ensures TotalDelay(0, base) == 0
    ensures TotalDelay(n + 1, base) == Sum(seq(n, i requires 0 <= i < n => Delay(i + 1, base)))
    ensures base == 0 || base >= 7 ==>
      TotalDelay(n + 1, base) == Sum(seq(n, i requires 0 <= i < n => Doubled(i + 1, base)))
  {
    ExactIff(base);
    if n > 0 {
      WaitIsSumOfDelays(n - 1, base);
      var before := seq(n - 1, i requires 0 <= i < n - 1 => Delay(i + 1, base));
      SumSnoc(before, Delay(n, base));
      assert seq(n, i requires 0 <= i < n => Delay(i + 1, base)) == before + [Delay(n, base)];
    }
    if base == 0 || base >= 7 {
      assert seq(n, i requires 0 <= i < n => Delay(i + 1, base))
          == seq(n, i requires 0 <= i < n => Doubled(i + 1, base));
    }
  }
}
