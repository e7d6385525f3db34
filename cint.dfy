/**
 * C integer arithmetic shared by both C code trees: the ranges of the
 * fixed-width types and C's division, which truncates toward zero
 * (Dafny's `/` and `%` are Euclidean).
 */
module CInt {

  /** A value or nothing, for C functions that return NULL or an "absent" code. */
  datatype Option<T> = None | Some(value: T)

  const INT16_MIN: int := -0x8000
  const INT16_MAX: int := 0x7FFF
  const INT32_MIN: int := -0x8000_0000
  const INT32_MAX: int := 0x7FFF_FFFF
  const UINT16_LIMIT: int := 0x1_0000
  const UINT32_LIMIT: int := 0x1_0000_0000

  predicate IsInt16(v: int) { INT16_MIN <= v <= INT16_MAX }
  predicate IsInt32(v: int) { INT32_MIN <= v <= INT32_MAX }
  predicate IsUint8(v: int) { 0 <= v < 0x100 }
  predicate IsUint16(v: int) { 0 <= v < UINT16_LIMIT }
  predicate IsUint32(v: int) { 0 <= v < UINT32_LIMIT }

  /** Absolute value of a mathematical integer. */
  function Abs(v: int): (r: nat)
    ensures r == v || r == -v
  {
    if v < 0 then -v else v
  }

  lemma AbsOfProduct(a: int, b: int)
    ensures Abs(a * b) == Abs(a) * Abs(b)
  {
    if a < 0 && b < 0 {
      assert a * b == (-a) * (-b);
    } else if a < 0 {
      assert -(a * b) == (-a) * b;
    } else if b < 0 {
      assert -(a * b) == a * (-b);
    }
  }

  lemma MulMono(a: int, b: int, c: int)
    requires a <= b && c >= 0
    ensures a * c <= b * c
  {
    assert b * c - a * c == (b - a) * c;
  }

  lemma EuclidBounds(an: nat, ad: nat)
    requires ad > 0
    ensures (an / ad) * ad <= an < (an / ad) * ad + ad
  {
    assert an == (an / ad) * ad + an % ad;
  }

  /** C's `n / d`: the quotient rounded toward zero. */
  function TruncDiv(n: int, d: int): (q: int)
    requires d != 0
    ensures Abs(q * d) <= Abs(n) < Abs(q * d) + Abs(d)
    ensures q == 0 || (q < 0) == ((n < 0) != (d < 0))
  {
    var q0 := Abs(n) / Abs(d);
    TruncDivBounds(n, d, q0);
    if (n < 0) == (d < 0) then q0 else -q0
  }

  lemma TruncDivBounds(n: int, d: int, q0: int)
    requires d != 0 && q0 == Abs(n) / Abs(d) && q0 >= 0
    ensures Abs(q0 * d) <= Abs(n) < Abs(q0 * d) + Abs(d)
    ensures Abs(-q0 * d) == Abs(q0 * d)
  {
    EuclidBounds(Abs(n), Abs(d));
    AbsOfProduct(q0, d);
    AbsOfProduct(-q0, d);
  }

  /** C's `n % d`: the remainder that has the sign of the dividend. */
  function TruncRem(n: int, d: int): (r: int)
    requires d != 0
    ensures TruncDiv(n, d) * d + r == n
    ensures Abs(r) < Abs(d)
    ensures r == 0 || (r < 0) == (n < 0)
  {
    n - TruncDiv(n, d) * d
  }

  /** Conversion of a mathematical integer to `uint16_t` (reduction modulo 2^16). */
  function ToUint16(v: int): (r: int)
    ensures IsUint16(r)
    ensures IsUint16(v) ==> r == v
  {
    v % UINT16_LIMIT
  }

  /** Conversion of a mathematical integer to `int16_t`, wrapping modulo 2^16 as the game's compiler does. */
  function ToInt16(v: int): (r: int)
    ensures IsInt16(r)
    ensures IsInt16(v) ==> r == v
    ensures (r - v) % UINT16_LIMIT == 0
  {
    (v + 0x8000) % UINT16_LIMIT - 0x8000
  }

  /** Conversion of a mathematical integer to `uint8_t` (reduction modulo 2^8). */
  function ToUint8(v: int): (r: int)
    ensures IsUint8(r)
    ensures IsUint8(v) ==> r == v
  {
    v % 0x100
  }
}
