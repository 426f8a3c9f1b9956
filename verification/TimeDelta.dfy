/** Differences of wrapping clocks, and how a ping's delay is split. All values
    are 64-bit unsigned. */
module TimeDelta {
  import opened Bits

  const MODULO: nat := 0x1_0000_0000  // PINGWEAVE_TIME_CALC_MODULO

  /** `calc_time_delta_with_modulo`. */
  function DeltaModulo(t1: nat, t2: nat, modulo: nat): (d: nat)
    requires modulo > 0
    ensures d < modulo
  {
    (t2 % modulo + modulo - t1 % modulo) % modulo
  }

  /** 64-bit subtraction. */
  function Sub64(a: nat, b: nat): nat
    requires a < WORD && b < WORD
  {
    if b <= a then a - b else a + WORD - b
  }

  /** `calc_time_delta_with_bitwrap`: `(mask - t1 + 1) + t2` in 64 bits. */
  function DeltaBitwrap(t1: nat, t2: nat, mask: nat): nat
    requires t1 < WORD && t2 < WORD && mask < WORD
  {
    if t2 >= t1 then t2 - t1
    else
      var d := Sub64(mask, t1) + 1 + t2;
      if d < WORD then d else d - WORD
  }

  /** The modulo delta is the difference of the two times, modulo. */
  lemma DeltaIsDifference(t1: nat, t2: nat, m: nat)
    requires m > 0
    ensures DeltaModulo(t1, t2, m) == (t2 - t1) % m
  {
    var a, b := t1 % m, t2 % m;
    var q, r := (b + m - a) / m, (b + m - a) % m;
    assert b + m - a == q * m + r;
    assert t1 == t1 / m * m + a && t2 == t2 / m * m + b;
    assert t2 - t1 == t2 / m * m - t1 / m * m + q * m - m + r;
    assert t2 - t1 == (t2 / m - t1 / m + q - 1) * m + r by {
      Distribute4(t2 / m, t1 / m, q, m);
    }
    DivModUnique(t2 - t1, m, t2 / m - t1 / m + q - 1, r);
  }

  lemma Distribute4(a: int, b: int, c: int, m: int)
    ensures (a - b + c - 1) * m == a * m - b * m + c * m - m
  {
  }

  /** For a counter that wraps at any multiple of the modulus, the delta of the
      two readings is the true difference exactly when that is below the
      modulus. */
  lemma DeltaRecoversIff(a: nat, b: nat, m: nat, wraps: nat)
    requires m > 0 && wraps > 0 && a <= b
    ensures wraps * m > 0
    ensures DeltaModulo(a % (wraps * m), b % (wraps * m), m) == b - a <==> b - a < m
  {
    MulMono(1, wraps, m);
    WrapThenMod(a, m, wraps);
    WrapThenMod(b, m, wraps);
    DeltaIsDifference(a, b, m);
    if b - a < m {
      DivModUnique(b - a, m, 0, b - a);
    }
  }

  /** On readings that fit the mask, with a mask of `k` ones for k at most 63,
      both deltas are the same function. */
  lemma DeltasAgree(t1: nat, t2: nat, k: nat)
    requires k <= 63 && t1 < Pow2(k) && t2 < Pow2(k)
    ensures Pow2(k) < WORD
    ensures DeltaBitwrap(t1, t2, Pow2(k) - 1) == DeltaModulo(t1, t2, Pow2(k))
  {
    BelowWord(k);
    DeltasAgreeOn(t1, t2, Pow2(k));
  }

  lemma BelowWord(k: nat)
    requires k <= 63
    ensures Pow2(k) < WORD
  {
    Pow2Pos(k, 63);
  }

  lemma DeltasAgreeOn(t1: nat, t2: nat, m: nat)
    requires t1 < m && t2 < m && m <= WORD
    ensures DeltaBitwrap(t1, t2, m - 1) == DeltaModulo(t1, t2, m)
  {
    DeltaIsDifference(t1, t2, m);
    if t2 >= t1 {
      DivModUnique(t2 - t1, m, 0, t2 - t1);
    } else {
      DivModUnique(t2 - t1, m, -1, t2 - t1 + m);
    }
  }

  lemma Pow2Square(a: nat, b: nat)
    requires b == a + a
    ensures Pow2(b) == Pow2(a) * Pow2(a)
  {
    Pow2Add(a, a);
  }

  /** The exponent is a variable, so that the powers are not computed. */
  lemma ModuloIsPow2(k: nat)
    requires k == 32
    ensures MODULO == Pow2(k)
  {
    Pow2Square(1, 2);
    Pow2Square(2, 4);
    Pow2Square(4, 8);
    Pow2Square(8, 16);
    Pow2Square(16, k);
  }

  lemma WordIsSquare(k: nat)
    requires k == 32
    ensures MODULO < WORD == MODULO * MODULO
  {
    ModuloIsPow2(k);
    Pow2Square(k, 64);
  }

  /** With all 64 bits as the mask, the bitwrap delta of two readings of a 64-bit
      clock is the true difference exactly when that fits the clock. */
  lemma BitwrapRecoversIff(a: nat, b: nat)
    requires a <= b
    ensures DeltaBitwrap(a % WORD, b % WORD, WORD - 1) == b - a <==> b - a < WORD
  {
    DeltasAgreeOn(a % WORD, b % WORD, WORD);
    DeltaRecoversIff(a, b, WORD, 1);
  }
}
