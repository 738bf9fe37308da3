/**
 * The integer part of the retry delay: the multiplier 2^clamp(i, 0, 10)
 * applied to the base delay for attempt index i.
 */
module Backoff {
  import opened QuickHttpTypes

  /** The largest exponent the delay grows to. */
  const MaxExponent: nat := 10

  function Pow2(n: nat): (r: nat)
    ensures r >= 1
    ensures n >= 1 ==> r % 2 == 0
  {
    if n == 0 then 1 else 2 * Pow2(n - 1)
  }

  /** Clamping of the attempt index into [0, MaxExponent]. */
  function Exponent(index: int32): (e: nat)
    ensures e <= MaxExponent
    ensures 0 <= index as int <= MaxExponent ==> e == index as int
    ensures index < 0 ==> e == 0
    ensures index as int > MaxExponent ==> e == MaxExponent
  {
    if index < 0 then 0 else if index as int > MaxExponent then MaxExponent else index as nat
  }

  /** The factor by which the base delay is multiplied before attempt index + 1 is issued. */
  function Multiplier(index: int32): (m: nat)
    ensures 1 <= m <= 1024
    ensures index <= 0 ==> m == 1
    ensures index >= 10 ==> m == 1024
  {
    Pow2MonotoneLemma(Exponent(index), MaxExponent);
    Pow2(Exponent(index))
  }

  lemma {:induction false} Pow2MonotoneLemma(a: nat, b: nat)
    requires a <= b
    ensures Pow2(a) <= Pow2(b)
    ensures b == 10 ==> Pow2(b) == 1024
  {
    if a < b {
      Pow2MonotoneLemma(a, b - 1);
    }
    if b == 10 {
      assert Pow2(5) == 32;
    }
  }

  /** The delay never shrinks as the attempt index grows. */
  lemma MultiplierMonotone(i: int32, j: int32)
    requires i <= j
    ensures Multiplier(i) <= Multiplier(j)
  {
    Pow2MonotoneLemma(Exponent(i), Exponent(j));
  }

  /** Below the cap each further retry doubles the delay; from the cap on it stays at 1024. */
  lemma MultiplierDoubles(i: int32)
    requires 0 <= i < 0x7fff_ffff
    ensures i < 10 ==> Multiplier(i + 1) == 2 * Multiplier(i)
    ensures i >= 10 ==> Multiplier(i + 1) == Multiplier(i)
  {
  }
}
