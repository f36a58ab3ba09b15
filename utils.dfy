/** The utility macros of include/blot_utils.h: min/max/abs/swap of a named
    type, power-of-two alignment and the "suspicious pointer" test. */
module BlotUtils {

  /** A C integer type: its width in bits and whether it is signed. */
  datatype CType = CType(bits: nat, signed: bool)

  const UINT32: CType := CType(32, false)
  const UINT64: CType := CType(64, false)
  const INT32: CType := CType(32, true)

  function Pow2(k: nat): (r: nat)
    ensures r >= 1
  {
    if k == 0 then 1 else 2 * Pow2(k - 1)
  }

  /** Conversion of an integer value to the type `t` (two's complement
      truncation, as gcc performs it). */
  function Conv(t: CType, v: int): (r: int)
    requires t.bits >= 1
    ensures !t.signed ==> 0 <= r < Pow2(t.bits)
    ensures t.signed ==> 0 <= r + Pow2(t.bits - 1) && r < Pow2(t.bits - 1)
    ensures t == UINT32 ==> r == v % 0x1_0000_0000
  {
    assert Pow2(t.bits) == 2 * Pow2(t.bits - 1);
    Pow2Value31();
    var m := v % Pow2(t.bits);
    if t.signed && m >= Pow2(t.bits - 1) then m - Pow2(t.bits) else m
  }

  /** Converting a value the type can already hold leaves it unchanged. */
  lemma ConvIdentity(t: CType, v: int)
    requires t.bits >= 1
    requires !t.signed ==> 0 <= v < Pow2(t.bits)
    requires t.signed ==> 0 <= v + Pow2(t.bits - 1) && v < Pow2(t.bits - 1)
    ensures Conv(t, v) == v
  {
    assert Pow2(t.bits) == 2 * Pow2(t.bits - 1);
    if t.signed && v < 0 {
      LemmaModUnique(v, Pow2(t.bits), -1, v + Pow2(t.bits));
    } else {
      LemmaModUnique(v, Pow2(t.bits), 0, v);
    }
  }

  /** min_t(type,a,b): the lesser of the two converted arguments. */
  function MinT(t: CType, a: int, b: int): (r: int)
    requires t.bits >= 1
    ensures r == Conv(t, a) || r == Conv(t, b)
    ensures r <= Conv(t, a) && r <= Conv(t, b)
  {
    var a', b' := Conv(t, a), Conv(t, b);
    if a' < b' then a' else b'
  }

  /** max_t(type,a,b): the greater of the two converted arguments. */
  function MaxT(t: CType, a: int, b: int): (r: int)
    requires t.bits >= 1
    ensures r == Conv(t, a) || r == Conv(t, b)
    ensures r >= Conv(t, a) && r >= Conv(t, b)
  {
    var a', b' := Conv(t, a), Conv(t, b);
    if a' > b' then a' else b'
  }

  /** min_t(double,a,b) */
  function MinR(a: real, b: real): (r: real)
    ensures r == a || r == b
    ensures r <= a && r <= b
  {
    if a < b then a else b
  }

  /** max_t(double,a,b) */
  function MaxR(a: real, b: real): (r: real)
    ensures r == a || r == b
    ensures r >= a && r >= b
  {
    if a > b then a else b
  }

  /** abs_t(type,a): `a` converted to `type`, kept when positive and negated
      otherwise.  A type narrower than int is promoted to int before the
      negation; in int and wider types the negation is done in the type, so
      the minimum of a signed type (whose negation C leaves undefined) is
      modelled as wrapping back to itself, and an unsigned value is its own
      absolute value. */
  function AbsT(t: CType, a: int): (r: int)
    requires t.bits >= 1
    ensures !t.signed ==> r == Conv(t, a)
    ensures t.signed && (t.bits < 32 || Conv(t, a) != -(Pow2(t.bits - 1) as int)) ==>
              r >= 0 && (r == Conv(t, a) || r == -Conv(t, a))
    ensures t.signed && t.bits >= 32 && Conv(t, a) == -(Pow2(t.bits - 1) as int) ==> r == Conv(t, a)
  {
    var x := Conv(t, a);
    if x > 0 then x
    else if t.bits < 32 || !t.signed then -x
    else
      assert Pow2(t.bits) == 2 * Pow2(t.bits - 1);
      if x == -(Pow2(t.bits - 1) as int) then
        LemmaModUnique(-x, Pow2(t.bits), 0, -x);
        Conv(t, -x)
      else
        ConvIdentity(t, -x);
        Conv(t, -x)
  }

  /** The min_t/max_t/abs_t checks of the unit tests, at their C widths. */
  lemma UtilsExamples()
    ensures MinT(INT32, 0, 1) == 0 && MaxT(INT32, 0, 1) == 1
    ensures MinT(INT32, -0x8000_0000, 0x7FFF_FFFF) == -0x8000_0000
    ensures MaxT(INT32, -0x8000_0000, 0x7FFF_FFFF) == 0x7FFF_FFFF
    ensures AbsT(INT32, 0) == 0 && AbsT(INT32, 1) == 1 && AbsT(INT32, -1) == 1
  {
    ConvIdentity(INT32, 0);
    ConvIdentity(INT32, 1);
    assert Pow2(31) == 0x8000_0000 by { Pow2Value31(); }
    ConvIdentity(INT32, -0x8000_0000);
    ConvIdentity(INT32, 0x7FFF_FFFF);
    ConvIdentity(INT32, -1);
  }

  /** abs_t at the edges of its type: an unsigned -1 is the type's maximum, and
      the int minimum, whose negation overflows, is left as it is. */
  lemma AbsTAtTypeEdges()
    ensures AbsT(UINT32, -1) == 0xFFFF_FFFF
    ensures AbsT(INT32, -0x8000_0000) == -0x8000_0000
    ensures AbsT(CType(8, true), -128) == 128
  {
    assert Pow2(31) == 0x8000_0000 by { Pow2Value31(); }
    ConvIdentity(INT32, -0x8000_0000);
    assert Pow2(7) == 128;
    ConvIdentity(CType(8, true), -128);
  }

  lemma Pow2Value31()
    ensures Pow2(31) == 0x8000_0000 && Pow2(32) == 0x1_0000_0000
  {
    assert Pow2(1) == 2 && Pow2(2) == 4 && Pow2(3) == 8;
    Pow2Add(3, 3);
    Pow2Add(6, 6);
    Pow2Add(12, 12);
    Pow2Add(24, 6);
    assert Pow2(31) == 2 * Pow2(30);
  }

  lemma Pow2Value64()
    ensures Pow2(64) == 0x1_0000_0000_0000_0000
  {
    Pow2Value31();
    Pow2Add(32, 32);
  }

  /** min_t never exceeds max_t for the same arguments. */
  lemma MinLeMax(t: CType, a: int, b: int)
    requires t.bits >= 1
    ensures MinT(t, a, b) <= MaxT(t, a, b)
  {
  }

  /** On values an unsigned 32-bit type already holds, min_t and max_t are the
      plain minimum and maximum. */
  lemma MinMaxUnsigned32(a: int, b: int)
    requires 0 <= a < 0x1_0000_0000 && 0 <= b < 0x1_0000_0000
    ensures MinT(UINT32, a, b) == (if a < b then a else b)
    ensures MaxT(UINT32, a, b) == (if a > b then a else b)
  {
    LemmaModUnique(a, 0x1_0000_0000, 0, a);
    LemmaModUnique(b, 0x1_0000_0000, 0, b);
  }

  /** swap_t(type,a,b) on two lvalues, modelled as two cells of an array whose
      own types are `ta` and `tb`: the temporary holds `a` converted to `t`,
      `a` receives `b` converted to its own type, `b` receives the temporary. */
  method SwapT(cells: array<int>, i: nat, j: nat, t: CType, ta: CType, tb: CType)
    requires i < cells.Length && j < cells.Length && i != j
    requires t.bits >= 1 && ta.bits >= 1 && tb.bits >= 1
    modifies cells
    ensures cells[i] == Conv(ta, old(cells[j]))
    ensures cells[j] == Conv(tb, Conv(t, old(cells[i])))
    ensures forall k | 0 <= k < cells.Length && k != i && k != j :: cells[k] == old(cells[k])
  {
    var tmp := Conv(t, cells[i]);
    cells[i] := Conv(ta, cells[j]);
    cells[j] := Conv(tb, tmp);
  }

  /** The unit test's second swap: `swap_t(int, a, c)` with a 32-bit a == 1 and
      a 64-bit c == UINT64_MAX leaves a == UINT32_MAX and c == 1. */
  lemma SwapMixedWidths()
    ensures Conv(UINT32, Pow2(64) - 1) == Pow2(32) - 1
    ensures Conv(UINT64, Conv(INT32, 1)) == 1
  {
    Pow2Value31();
    assert Pow2(64) == Pow2(32) * Pow2(32) by { Pow2Add(32, 32); }
    assert (Pow2(64) - 1) % Pow2(32) == Pow2(32) - 1 by {
      assert Pow2(64) - 1 == (Pow2(32) - 1) * Pow2(32) + (Pow2(32) - 1);
    }
    ConvIdentity(INT32, 1);
    ConvIdentity(UINT64, 1);
  }

  lemma {:induction false} Pow2Add(a: nat, b: nat)
    ensures Pow2(a + b) == Pow2(a) * Pow2(b)
  {
    if a > 0 {
      Pow2Add(a - 1, b);
    }
  }

  // ---- bitwise AND on non-negative integers, for ALIGN_SIZE_UP ----

  /** Bitwise AND of two non-negative integers, bit by bit from the bottom. */
  function BitAnd(a: nat, b: nat): (r: nat)
    ensures r <= a
  {
    if a == 0 || b == 0 then 0 else 2 * BitAnd(a / 2, b / 2) + (a % 2) * (b % 2)
  }

  /** ~x in an unsigned type of `n` bits. */
  function BitNot(x: nat, n: nat): (r: nat)
    requires x < Pow2(n)
    ensures r < Pow2(n)
  {
    Pow2(n) - 1 - x
  }

  /** ALIGN_SIZE_UP(size, bytes) = (size + bytes - 1) & ~(bytes - 1), computed
      in an unsigned type of `n` bits (size_t: n == 64). */
  function AlignUpIn(size: nat, bytes: nat, n: nat): nat
    requires 1 <= bytes < Pow2(n)
  {
    BitAnd((size + bytes - 1) % Pow2(n), BitNot(bytes - 1, n))
  }

  /** ALIGN_SIZE_UP on a 64-bit size_t. */
  function AlignSizeUp(size: nat, bytes: nat): (r: nat)
    requires 1 <= bytes < Pow2(64)
    ensures r < Pow2(64)
  {
    AlignUpIn(size, bytes, 64)
  }

  lemma ModHalf(x: nat, n: nat)
    ensures x % Pow2(n + 1) == 2 * ((x / 2) % Pow2(n)) + x % 2
  {
    var q := x / 2;
    var p := Pow2(n);
    assert x == 2 * q + x % 2;
    assert q == (q / p) * p + q % p;
    assert x == (q / p) * (2 * p) + (2 * (q % p) + x % 2);
    assert 0 <= 2 * (q % p) + x % 2 < 2 * p;
    LemmaModUnique(x, 2 * p, q / p, 2 * (q % p) + x % 2);
  }

  lemma LemmaModUnique(x: int, m: int, q: int, r: int)
    requires m > 0 && 0 <= r < m && x == q * m + r
    ensures x % m == r
    ensures x / m == q
  {
    var q', r' := x / m, x % m;
    assert x == q' * m + r';
    var d := q' - q;
    assert d * m == r - r' by {
      assert q' * m - q * m == r - r';
      MulSubDistrib(q', q, m);
    }
    if d >= 1 {
      MulAtLeast(d, m);
    } else if d <= -1 {
      MulAtLeast(-d, m);
    }
  }

  lemma DivStep(x: int, m: int)
    requires m > 0
    ensures (x + m) / m == x / m + 1
  {
    DivMod(x, m);
    LemmaModUnique(x + m, m, x / m + 1, x % m);
  }

  lemma DivMono(x: int, y: int, m: int)
    requires m > 0 && x <= y
    ensures x / m <= y / m
  {
    DivMod(x, m);
    DivMod(y, m);
    if x / m > y / m {
      MulSubDistrib(x / m, y / m, m);
      MulAtLeast(x / m - y / m, m);
    }
  }

  lemma DivBelow(x: int, m: int, k: int)
    requires m > 0 && x < k * m
    ensures x / m < k
  {
    DivMod(x, m);
    if x / m >= k {
      MulSubDistrib(x / m, k, m);
      if x / m > k {
        MulAtLeast(x / m - k, m);
      }
    }
  }

  /** The floor of a quotient of naturals computed in reals is the integer quotient. */
  lemma FloorOfRatio(a: nat, b: nat)
    requires b > 0
    ensures (a as real / b as real).Floor == a / b
  {
    var q, r := a / b, a % b;
    DivMod(a, b);
    assert (a as real) == (q as real) * (b as real) + (r as real);
    assert a as real / b as real == q as real + (r as real) / (b as real);
    assert 0.0 <= (r as real) / (b as real) < 1.0;
  }

  lemma DivMod(x: int, m: int)
    requires m > 0
    ensures x == (x / m) * m + x % m && 0 <= x % m < m
  {
  }

  lemma MulSubDistrib(a: int, b: int, m: int)
    ensures (a - b) * m == a * m - b * m
  {
  }

  lemma {:induction false} MulAtLeast(d: int, m: int)
    requires d >= 1 && m > 0
    ensures d * m >= m
    decreases d
  {
    if d > 1 {
      MulAtLeast(d - 1, m);
      assert d * m == (d - 1) * m + m;
    }
  }

  /** AND-ing with the mask of the low n bits keeps exactly those bits. */
  lemma {:induction false} BitAndLowMask(x: nat, n: nat)
    ensures BitAnd(x, Pow2(n) - 1) == x % Pow2(n)
    decreases n
  {
    if n == 0 || x == 0 {
    } else {
      var p := Pow2(n - 1);
      var m := Pow2(n) - 1;
      assert m == 2 * (p - 1) + 1;
      assert m / 2 == p - 1 && m % 2 == 1;
      BitAndLowMask(x / 2, n - 1);
      assert BitAnd(x, m) == 2 * ((x / 2) % p) + x % 2;
      ModHalf(x, n - 1);
    }
  }

  /** AND-ing with a mask whose bits k..n-1 are set keeps exactly those bits. */
  lemma {:induction false} BitAndBand(x: nat, n: nat, k: nat)
    requires k <= n && Pow2(k) <= Pow2(n)
    ensures BitAnd(x, Pow2(n) - Pow2(k)) == x % Pow2(n) - x % Pow2(k)
    decreases n
  {
    if n == k {
      assert BitAnd(x, 0) == 0;
    } else if k == 0 {
      BitAndLowMask(x, n);
    } else {
      Pow2Mono(k - 1, n - 1);
      BitAndBand(x / 2, n - 1, k - 1);
      BitAndBandStep(x, n, k);
    }
  }

  /** One bit of BitAndBand: the lowest bit of x is outside the band. */
  lemma BitAndBandStep(x: nat, n: nat, k: nat)
    requires 0 < k < n && Pow2(k - 1) < Pow2(n - 1)
    requires BitAnd(x / 2, Pow2(n - 1) - Pow2(k - 1)) == (x / 2) % Pow2(n - 1) - (x / 2) % Pow2(k - 1)
    ensures Pow2(k) <= Pow2(n)
    ensures BitAnd(x, Pow2(n) - Pow2(k)) == x % Pow2(n) - x % Pow2(k)
  {
    var p, q := Pow2(n - 1), Pow2(k - 1);
    assert Pow2(n) == 2 * p && Pow2(k) == 2 * q;
    var m := Pow2(n) - Pow2(k);
    ModHalf(x, n - 1);
    ModHalf(x, k - 1);
    if x != 0 {
      assert m / 2 == p - q && m % 2 == 0;
      assert BitAnd(x, m) == 2 * BitAnd(x / 2, p - q);
    }
  }

  lemma {:induction false} Pow2Mono(a: nat, b: nat)
    requires a < b
    ensures Pow2(a) < Pow2(b)
  {
    if b > a + 1 {
      Pow2Mono(a, b - 1);
    }
  }

  /** Without wrap-around, the aligned value is size + bytes - 1 rounded down to a multiple of bytes. */
  lemma AlignUpRoundsDown(size: nat, k: nat, n: nat)
    requires k < n && Pow2(k) < Pow2(n)
    requires size + Pow2(k) - 1 < Pow2(n)
    ensures AlignUpIn(size, Pow2(k), n) == ((size + Pow2(k) - 1) / Pow2(k)) * Pow2(k)
  {
    var bytes := Pow2(k);
    var x := size + bytes - 1;
    assert BitNot(bytes - 1, n) == Pow2(n) - Pow2(k);
    assert x % Pow2(n) == x by { LemmaModUnique(x, Pow2(n), 0, x); }
    BitAndBand(x, n, k);
    DivMod(x, bytes);
  }

  /** For a power of two `bytes` and no wrap-around in n bits, the aligned
      value is the least multiple of `bytes` that is at least `size`. */
  lemma AlignUpInIsLeastMultiple(size: nat, k: nat, n: nat)
    requires k < n && Pow2(k) < Pow2(n)
    requires size + Pow2(k) - 1 < Pow2(n)
    ensures AlignUpIn(size, Pow2(k), n) % Pow2(k) == 0
    ensures size <= AlignUpIn(size, Pow2(k), n) < size + Pow2(k)
  {
    var bytes := Pow2(k);
    var x := size + bytes - 1;
    var q := x / bytes;
    var r := x % bytes;
    var a := AlignUpIn(size, bytes, n);
    assert a == q * bytes by { AlignUpRoundsDown(size, k, n); }
    assert a % bytes == 0 by { LemmaModUnique(q * bytes, bytes, q, 0); }
    assert a == x - r && 0 <= r < bytes by { DivMod(x, bytes); }
  }

  /** For a power of two `bytes` and no size_t overflow, ALIGN_SIZE_UP gives the
      least multiple of `bytes` that is at least `size`. */
  lemma AlignSizeUpIsLeastMultiple(size: nat, k: nat)
    requires k < 64 && Pow2(k) < Pow2(64)
    requires size + Pow2(k) - 1 < Pow2(64)
    ensures AlignSizeUp(size, Pow2(k)) % Pow2(k) == 0
    ensures size <= AlignSizeUp(size, Pow2(k)) < size + Pow2(k)
  {
    AlignUpInIsLeastMultiple(size, k, 64);
  }

  // ---- __pointer_suspect ----

  const PAGE_SIZE: nat := 4096

  /** __pointer_suspect(p) for a 64-bit uintptr_t p: p < PAGE_SIZE or ~p < PAGE_SIZE. */
  predicate PointerSuspect(p: nat)
    requires p < Pow2(64)
  {
    p < PAGE_SIZE || BitNot(p, 64) < PAGE_SIZE
  }

  /** The suspect pointers are exactly the first and the last page of the address space. */
  lemma PointerSuspectRanges(p: nat)
    requires p < Pow2(64)
    ensures PointerSuspect(p) <==> p < 4096 || p >= Pow2(64) - 4096
  {
  }

  /** The unit test's cases: NULL, 1 and 4095 are suspect; 4096 is not. */
  lemma PointerSuspectExamples()
    ensures Pow2(64) > 8192
    ensures PointerSuspect(0) && PointerSuspect(1) && PointerSuspect(4095)
    ensures !PointerSuspect(4096)
  {
    Pow2Value64();
  }
}
