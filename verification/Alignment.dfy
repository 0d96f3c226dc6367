/** The stride computation of `VulkanDynamicBuffer<T>::findDynamicAlignment`:
    `(s + m - 1) & ~(m - 1)` on `size_t`, or `s` when the device reports a
    minimum alignment `m` of 0. The bitwise operators are written out on
    unbounded integers so that the bit trick itself is what is proved. */
module Alignment {
  import opened Bytes

  function Pow2(k: nat): (r: nat)
    ensures r >= 1
  {
    if k == 0 then 1 else 2 * Pow2(k - 1)
  }

  /** The Vulkan specification requires `minUniformBufferOffsetAlignment`
      to be a power of two; the bit trick depends on it. */
  predicate IsPowerOfTwo(m: nat)
    decreases m
  {
    m == 1 || (m >= 2 && m % 2 == 0 && IsPowerOfTwo(m / 2))
  }

  /** The exponent of a power of two. */
  function Log2(m: nat): (k: nat)
    requires IsPowerOfTwo(m)
    ensures Pow2(k) == m
    decreases m
  {
    if m == 1 then 0 else 1 + Log2(m / 2)
  }

  /** Bitwise AND of two unsigned values (`&`), bit by bit from the lowest. */
  function BitAnd(a: nat, b: nat): nat
    decreases a
  {
    if a == 0 || b == 0 then 0
    else 2 * BitAnd(a / 2, b / 2) + (if a % 2 == 1 && b % 2 == 1 then 1 else 0)
  }

  /** Bitwise NOT of a `size_t` (`~`). */
  function BitNot64(x: nat): (r: nat)
    requires x < SizeModulus
    ensures r < SizeModulus && r + x == SizeModulus - 1
  {
    SizeModulus - 1 - x
  }

  /** What the stride formula requires of its inputs: an alignment the
      Vulkan specification allows, and no `size_t` overflow in `s + m - 1`. */
  predicate AlignmentInputsOk(s: nat, m: nat)
  {
    m == 0 || (IsPowerOfTwo(m) && m < SizeModulus && s + m - 1 < SizeModulus)
  }

  /** The per-instance stride: `sizeof(T)` rounded up to the device's
      minimum uniform-buffer offset alignment. */
  function AlignUp(s: nat, m: nat): (r: nat)
    requires AlignmentInputsOk(s, m)
    ensures m == 0 ==> r == s
    ensures m > 0 ==> r % m == 0 && s <= r < s + m
    ensures r >= s
  {
    if m == 0 then s
    else
      MaskedSumFacts(s, m);
      BitAnd(s + m - 1, BitNot64(m - 1))
  }

  /** The bit trick's result is `s + m - 1` rounded down to a multiple of
      `m`, which lies in `[s, s + m)`. */
  lemma MaskedSumFacts(s: nat, m: nat)
    requires IsPowerOfTwo(m) && m < SizeModulus && s + m - 1 < SizeModulus
    ensures m - 1 < SizeModulus
    ensures BitAnd(s + m - 1, BitNot64(m - 1)) % m == 0
    ensures s <= BitAnd(s + m - 1, BitNot64(m - 1)) < s + m
  {
    var x := s + m - 1;
    MaskIsRoundDown(x, m);
    RoundDownFacts(x, m);
  }

  /** A multiple of `m` that is at least `s` is at least the stride: the
      stride is the least such multiple. */
  lemma AlignUpIsLeast(s: nat, m: nat, q: nat)
    requires AlignmentInputsOk(s, m) && m > 0
    requires q % m == 0 && q >= s
    ensures AlignUp(s, m) <= q
  {
    var r := AlignUp(s, m);
    MultiplesOrdered(r, q, m);
  }

  /** A record no larger than a non-zero minimum alignment gets a stride
      of exactly that alignment: with a 256-byte minimum, 64-byte matrices
      are laid out 256 bytes apart. */
  lemma SmallRecordStrideIsAlignment(s: nat, m: nat)
    requires AlignmentInputsOk(s, m) && 0 < s <= m
    ensures AlignUp(s, m) == m
  {
    var r := AlignUp(s, m);
    MultiplesOrdered(r, m, m);
    MultiplesOrdered(m, r, m);
  }

  // ---------------------------------------------------------------------------
  // Arithmetic behind the bit trick

  /** Of two multiples of `m`, one that exceeds the other minus `m` is at
      least the other. */
  lemma MultiplesOrdered(r: nat, q: nat, m: nat)
    requires m >= 1 && r % m == 0 && q % m == 0 && q + m > r
    ensures q >= r
  {
    DivModSplit(r, m);
    DivModSplit(q, m);
    MultiplierOrdered(r / m, q / m, m);
  }

  lemma MultiplierOrdered(a: nat, b: nat, m: nat)
    requires m >= 1 && b * m + m > a * m
    ensures b * m >= a * m
  {
    if b + 1 <= a {
      MulMonotone(b + 1, a, m);
    }
    if b >= a {
      MulMonotone(a, b, m);
    }
  }

  lemma DivModSplit(x: nat, m: nat)
    requires m >= 1
    ensures x == (x / m) * m + x % m
  {
  }

  lemma MulMonotone(a: nat, b: nat, m: nat)
    requires a <= b
    ensures a * m <= b * m
  {
  }

  lemma {:induction false} Pow2Monotone(j: nat, k: nat)
    requires j <= k
    ensures Pow2(j) <= Pow2(k)
    decreases k
  {
    if j < k {
      Pow2Monotone(j, k - 1);
    }
  }

  lemma {:induction false} Pow2Add(j: nat, k: nat)
    ensures Pow2(j + k) == Pow2(j) * Pow2(k)
    decreases j
  {
    if j > 0 {
      Pow2Add(j - 1, k);
      assert Pow2(j + k) == 2 * Pow2(j - 1 + k);
    }
  }

  /** The range of `size_t` is 2^64. */
  lemma Pow2Is64BitRange()
    ensures Pow2(64) == SizeModulus
  {
    assert Pow2(4) == 16;
    Pow2Add(4, 4);
    assert Pow2(8) == 256;
    Pow2Add(8, 8);
    assert Pow2(16) == 65536;
    Pow2Add(16, 16);
    assert Pow2(32) == 4294967296;
    Pow2Add(32, 32);
  }

  /** `x % (2p)` splits into the lowest bit and the remainder of `x / 2`. */
  lemma ModDouble(x: nat, p: nat)
    requires p >= 1
    ensures x % (2 * p) == x % 2 + 2 * ((x / 2) % p)
  {
    var q, r := (x / 2) / p, (x / 2) % p;
    assert x / 2 == q * p + r;
    assert x == q * (2 * p) + (x % 2 + 2 * r);
    assert 0 <= x % 2 + 2 * r < 2 * p;
    ModUnique(x, 2 * p, q, x % 2 + 2 * r);
  }

  lemma ModUnique(x: nat, d: nat, q: nat, r: nat)
    requires d >= 1 && x == q * d + r && r < d
    ensures x % d == r && x / d == q
  {
    var q', r' := x / d, x % d;
    assert x == q' * d + r';
    if q' < q {
      MulMonotone(q' + 1, q, d);
      assert false;
    } else if q' > q {
      MulMonotone(q + 1, q', d);
      assert false;
    }
  }

  /** AND with an all-ones mask of `w` bits keeps a `w`-bit value. */
  lemma {:induction false} AndAllOnes(x: nat, w: nat)
    requires x < Pow2(w)
    ensures BitAnd(x, Pow2(w) - 1) == x
    decreases w
  {
    if w > 0 && x > 0 {
      var ones := Pow2(w) - 1;
      assert ones == 2 * (Pow2(w - 1) - 1) + 1;
      assert ones / 2 == Pow2(w - 1) - 1 && ones % 2 == 1;
      AndAllOnes(x / 2, w - 1);
    }
  }

  /** AND with a mask that clears the lowest `k` of `w` bits rounds a
      `w`-bit value down to a multiple of 2^k. */
  lemma {:induction false} AndClearsLowBits(x: nat, w: nat, k: nat)
    requires k <= w && x < Pow2(w) && Pow2(k) <= Pow2(w)
    ensures BitAnd(x, Pow2(w) - Pow2(k)) == x - x % Pow2(k)
    decreases k
  {
    if k == 0 {
      AndAllOnes(x, w);
    } else {
      Pow2Monotone(k - 1, w - 1);
      if x > 0 && Pow2(w) != Pow2(k) {
        AndClearsLowBits(x / 2, w - 1, k - 1);
      }
      ClearLowBitsStep(x, w, k);
    }
  }

  /** One bit of `AndClearsLowBits`: from the claim for `x / 2` on `w - 1`
      bits to the claim for `x` on `w` bits. */
  lemma ClearLowBitsStep(x: nat, w: nat, k: nat)
    requires 0 < k <= w && x < Pow2(w) && Pow2(k) <= Pow2(w)
    requires Pow2(k - 1) <= Pow2(w - 1)
    requires x > 0 && Pow2(w) != Pow2(k) ==>
      BitAnd(x / 2, Pow2(w - 1) - Pow2(k - 1)) == x / 2 - (x / 2) % Pow2(k - 1)
    ensures BitAnd(x, Pow2(w) - Pow2(k)) == x - x % Pow2(k)
  {
    assert Pow2(k) == 2 * Pow2(k - 1) && Pow2(w) == 2 * Pow2(w - 1);
    assert Pow2(w) - Pow2(k) == 2 * (Pow2(w - 1) - Pow2(k - 1));
    ClearLowBitArith(x, Pow2(w - 1), Pow2(k - 1));
  }

  lemma ClearLowBitArith(x: nat, hi: nat, p: nat)
    requires 1 <= p <= hi && x < 2 * hi
    requires x > 0 && hi != p ==> BitAnd(x / 2, hi - p) == x / 2 - (x / 2) % p
    ensures BitAnd(x, 2 * (hi - p)) == x - x % (2 * p)
  {
    var mask := 2 * (hi - p);
    if mask == 0 {
      ModUnique(x, 2 * p, 0, x);
    } else if x == 0 {
      ModUnique(0, 2 * p, 0, 0);
    } else {
      BitAndEvenMask(x, hi - p);
      ModDouble(x, p);
      HalfStep(x, BitAnd(x / 2, hi - p), x % (2 * p), p);
    }
  }

  lemma BitAndEvenMask(x: nat, half: nat)
    requires x > 0 && half > 0
    ensures BitAnd(x, 2 * half) == 2 * BitAnd(x / 2, half)
  {
    assert (2 * half) % 2 == 0 && (2 * half) / 2 == half;
  }

  lemma HalfStep(x: nat, a: int, r: int, p: nat)
    requires p >= 1
    requires a == x / 2 - (x / 2) % p
    requires r == x % 2 + 2 * ((x / 2) % p)
    ensures 2 * a == x - r
  {
  }

  /** `x & ~(m - 1)` on `size_t` is `x` rounded down to a multiple of `m`. */
  lemma MaskIsRoundDown(x: nat, m: nat)
    requires IsPowerOfTwo(m) && m < SizeModulus && x < SizeModulus
    ensures BitAnd(x, BitNot64(m - 1)) == x - x % m
  {
    var k := Log2(m);
    Pow2Is64BitRange();
    if k > 64 {
      Pow2Monotone(64, k);
      assert false;
    }
    assert BitNot64(m - 1) == Pow2(64) - Pow2(k);
    Pow2Monotone(k, 64);
    AndClearsLowBits(x, 64, k);
  }

  lemma RoundDownFacts(x: nat, m: nat)
    requires m >= 1
    ensures (x - x % m) % m == 0
    ensures x - m < x - x % m <= x
  {
    ModUnique(x - x % m, m, x / m, 0);
  }
}
