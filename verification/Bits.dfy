/** Unsigned machine words, the bit operations the ring buffers use, and the
    rounding of a size up to a power of two. */
module Bits {

  function Pow2(k: nat): (p: nat)
    ensures p >= 1
  {
    if k == 0 then 1 else 2 * Pow2(k - 1)
  }

  /** The number of values of a 64-bit word (size_t, uint64_t). */
  const WORD: nat := Pow2(64)

  lemma {:induction false} Pow2Add(a: nat, b: nat)
    ensures Pow2(a + b) == Pow2(a) * Pow2(b)
  {
    if a > 0 {
      Pow2Add(a - 1, b);
      Associate(2, Pow2(a - 1), Pow2(b));
    }
  }

  predicate IsPow2(x: nat) {
    x == 1 || (x > 1 && x % 2 == 0 && IsPow2(x / 2))
  }

  function And(a: nat, b: nat): nat
    decreases a
  {
    if a == 0 then 0 else 2 * And(a / 2, b / 2) + (a % 2) * (b % 2)
  }

  function Or(a: nat, b: nat): (r: nat)
    ensures a <= r && b <= r
    decreases a + b
  {
    if a == 0 && b == 0 then 0
    else 2 * Or(a / 2, b / 2) + (if a % 2 == 1 || b % 2 == 1 then 1 else 0)
  }

  lemma AndStep(x: nat, mask: nat)
    requires x > 0
    ensures And(x, mask) == 2 * And(x / 2, mask / 2) + (x % 2) * (mask % 2)
  {
  }

  /** Below the mask of `2 * half`, whose last bit is a one. */
  lemma AndHalves(x: nat, half: nat)
    requires half > 0
    ensures And(x, 2 * half - 1) == 2 * And(x / 2, half - 1) + x % 2
  {
    assert (2 * half - 1) / 2 == half - 1 && (2 * half - 1) % 2 == 1;
    if x > 0 {
      AndStep(x, 2 * half - 1);
    }
  }

  lemma {:induction false} AndZero(x: nat)
    ensures And(x, 0) == 0
    decreases x
  {
    if x > 0 {
      AndStep(x, 0);
      AndZero(x / 2);
    }
  }

  /** Masking with `size - 1` is reduction modulo a power of two. */
  lemma {:induction false} AndIsMod(x: nat, size: nat)
    requires IsPow2(size)
    ensures And(x, size - 1) == x % size
    decreases size
  {
    if size == 1 {
      AndZero(x);
    } else {
      AndIsMod(x / 2, size / 2);
      AndHalves(x, size / 2);
      HalfMod(x, size / 2);
    }
  }

  lemma HalfMod(x: nat, half: nat)
    requires half > 0
    ensures x % (2 * half) == 2 * (x / 2 % half) + x % 2
  {
    var q, r := x / 2 / half, x / 2 % half;
    assert x / 2 == q * half + r;
    assert x == q * (2 * half) + (2 * r + x % 2);
    DivModUnique(x, 2 * half, q, 2 * r + x % 2);
  }

  lemma DivModUnique(x: int, m: int, q: int, r: int)
    requires m > 0 && x == q * m + r && 0 <= r < m
    ensures x % m == r && x / m == q
  {
    var q', r' := x / m, x % m;
    assert (q - q') * m == r' - r && (q' - q) * m == r - r';
    if q > q' {
      MulMono(1, q - q', m);
    } else if q < q' {
      MulMono(1, q' - q, m);
    }
  }

  lemma MulMono(a: int, b: int, m: int)
    requires a <= b && m >= 0
    ensures a * m <= b * m
  {
  }

  lemma SmallMod(x: nat, m: nat)
    requires 0 < m && x <= m
    ensures x % m == if x == m then 0 else x
  {
    if x == m { DivModUnique(x, m, 1, 0); } else { DivModUnique(x, m, 0, x); }
  }

  /** The index after `i` in a ring of `size` slots. */
  function NextIndex(i: nat, size: nat): nat
    requires i < size
  {
    if i + 1 == size then 0 else i + 1
  }

  /** Position `i` places after `b` in a ring of `n`. */
  function At(b: nat, i: nat, n: nat): nat
    requires b < n && i <= n
  {
    if b + i < n then b + i else b + i - n
  }

  /** How far `x` is ahead of `base` in a ring of `n`. */
  function Off(x: nat, base: nat, n: nat): nat
    requires x < n && base < n
  {
    if base <= x then x - base else x + n - base
  }

  /** In a ring of a power of two, it is what `(i + 1) & sizeMask` computes. */
  lemma MaskIsNextIndex(i: nat, size: nat)
    requires i < size && IsPow2(size)
    ensures And(i + 1, size - 1) == NextIndex(i, size)
  {
    AndIsMod(i + 1, size);
    SmallMod(i + 1, size);
  }

  lemma Distribute(a: int, b: int, c: int, m: int)
    ensures (a + b + c) * m == a * m + b * m + c * m
  {
  }

  lemma WrapThenMod(i: nat, m: nat, k: nat)
    requires m > 0 && k * m > 0
    ensures i % (k * m) % m == i % m
  {
    var q, r := i / (k * m), i % (k * m);
    var a, b := r / m, r % m;
    assert i == q * (k * m) + (a * m + b);
    assert q * (k * m) == (q * k) * m by { Associate(q, k, m); }
    assert (q * k + a) * m == q * k * m + a * m by { Distribute(q * k, a, 0, m); }
    DivModUnique(i, m, q * k + a, b);
  }

  lemma Associate(a: int, b: int, c: int)
    ensures a * (b * c) == (a * b) * c
  {
  }

  // ---------------------------------------------------------------- rounding

  /** All bits of `x` from its top one down for `n` places are set; `k` is the
      bit length of `x`. */
  ghost predicate TopOnes(x: nat, k: nat, n: nat) {
    Pow2(k) - Pow2(Minus(k, n)) <= x < Pow2(k)
  }

  function Minus(a: nat, b: nat): nat {
    if b <= a then a - b else 0
  }

  function Shr(x: nat, n: nat): nat {
    if n == 0 then x else Shr(x / 2, n - 1)
  }

  lemma {:induction false} OrZero(a: nat)
    ensures Or(a, 0) == a
  {
    if a != 0 {
      OrZero(a / 2);
    }
  }

  lemma {:induction false} OrBelow(x: nat, y: nat, k: nat)
    requires x < Pow2(k) && y < Pow2(k)
    ensures Or(x, y) < Pow2(k)
  {
    if k != 0 {
      OrBelow(x / 2, y / 2, k - 1);
    }
  }

  /** Ones above position `m` survive, and `y` adds below it. */
  lemma {:induction false} OrAbove(x: nat, y: nat, k: nat, m: nat)
    requires m <= k && Pow2(k) - Pow2(m) <= x && y < Pow2(m)
    ensures Pow2(k) - Pow2(m) + y <= Or(x, y)
  {
    if m == 0 {
      OrZero(x);
    } else {
      OrAbove(x / 2, y / 2, k - 1, m - 1);
    }
  }

  lemma {:induction false} ShrBounds(x: nat, k: nat, low: nat, n: nat)
    requires low <= k && Pow2(k) - Pow2(low) <= x < Pow2(k)
    ensures Shr(x, n) < Pow2(Minus(k, n))
    ensures n <= k ==> Pow2(k - n) - Pow2(Minus(low, n)) <= Shr(x, n)
  {
    if n != 0 && k != 0 {
      ShrBounds(x / 2, k - 1, Minus(low, 1), n - 1);
    } else if n != 0 {
      ShrBounds(0, 0, 0, n - 1);
    }
  }

  /** One `x |= x >> n` doubles the length of the run of ones at the top. */
  lemma SmearStep(x: nat, k: nat, n: nat)
    requires n >= 1 && TopOnes(x, k, n)
    ensures TopOnes(Or(x, Shr(x, n)), k, 2 * n)
  {
    ShrBounds(x, k, Minus(k, n), n);
    Pow2Pos(Minus(k, n), k);
    OrBelow(x, Shr(x, n), k);
    OrAbove(x, Shr(x, n), k, Minus(k, n));
  }

  lemma {:induction false} Pow2Pos(a: nat, b: nat)
    requires a <= b
    ensures Pow2(a) <= Pow2(b)
  {
    if a < b {
      Pow2Pos(a, b - 1);
    }
  }

  lemma {:induction false} BitLength(x: nat) returns (k: nat)
    ensures TopOnes(x, k, 1) && (x > 0 ==> k > 0)
  {
    if x == 0 {
      k := 0;
    } else {
      k := BitLength(x / 2);
      k := k + 1;
    }
  }

  lemma {:induction false} Pow2IsPow2(k: nat)
    ensures IsPow2(Pow2(k))
  {
    if k != 0 {
      Pow2IsPow2(k - 1);
    }
  }

  lemma {:induction false} IsPow2Log(p: nat) returns (j: nat)
    requires IsPow2(p)
    ensures p == Pow2(j)
  {
    if p == 1 {
      j := 0;
    } else {
      j := IsPow2Log(p / 2);
      j := j + 1;
    }
  }

  /** Above an `x` of bit length `k`, the least power of two is `2^k`. */
  lemma CeilingOf(x: nat, k: nat)
    requires TopOnes(x, k, 1) && x < WORD && (x > 0 ==> k > 0)
    ensures IsPow2(Pow2(k)) && forall p: nat :: IsPow2(p) && x < p ==> Pow2(k) <= p
    ensures k <= 64 && Pow2(k) <= WORD
    ensures Pow2(k) == WORD <==> WORD <= 2 * x
  {
    Pow2IsPow2(k);
    if k > 64 { Pow2Pos(64, k - 1); }
    Pow2Pos(k, 64);
    if k < 64 { Pow2Pos(k, 63); }
    forall p: nat | IsPow2(p) && x < p
      ensures Pow2(k) <= p
    {
      var j := IsPow2Log(p);
      if j < k {
        Pow2Pos(j, k - 1);
      } else {
        Pow2Pos(k, j);
      }
    }
  }

  /** The shifting cascade: every bit below the top one becomes a one. `k` is
      the bit length of the argument. */
  method Smear(arg: nat, ghost k: nat) returns (x: nat)
    requires TopOnes(arg, k, 1) && k <= 64
    ensures x == Pow2(k) - 1
  {
    x := arg;
    SmearStep(x, k, 1);
    x := Or(x, Shr(x, 1));
    SmearStep(x, k, 2);
    x := Or(x, Shr(x, 2));
    SmearStep(x, k, 4);
    x := Or(x, Shr(x, 4));
    var i := 1;
    while i < 8
      invariant i in {1, 2, 4, 8}
      invariant TopOnes(x, k, 8 * i)
      decreases 8 - i
    {
      SmearStep(x, k, 8 * i);
      x := Or(x, Shr(x, 8 * i));
      i := i * 2;
    }
  }

  /** `ceilToPow2` on a 64-bit word. It is the least power of two at or above
      its argument exactly on 1 .. 2^63; on 0 and above 2^63 it wraps to 0. */
  method CeilToPow2(arg: nat) returns (x: nat)
    requires arg < WORD
    ensures 1 <= arg && 2 * arg <= WORD <==> x != 0
    ensures x != 0 ==> IsPow2(x) && arg <= x && forall p: nat :: IsPow2(p) && arg <= p ==> x <= p
  {
    x := if arg == 0 then WORD - 1 else arg - 1;
    ghost var k := BitLength(x);
    CeilingOf(x, k);
    Pow2IsEven(64);
    Wraps(arg, Pow2(k), WORD);
    x := Smear(x, k);
    x := if x + 1 == WORD then 0 else x + 1;
  }

  lemma Wraps(arg: nat, c: nat, word: nat)
    requires arg < word && word % 2 == 0
    requires c == word <==> word <= 2 * if arg == 0 then word - 1 else arg - 1
    ensures 1 <= arg && 2 * arg <= word <==> c != word
  {
  }

  lemma Pow2IsEven(k: nat)
    requires k > 0
    ensures Pow2(k) % 2 == 0
  {
  }
}
