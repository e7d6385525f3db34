/**
 * Extended 16.16 fixed-point math (source/fixed_math.c): absolute value,
 * minimum, maximum, clamp, linear interpolation, the 256-step sine table,
 * Newton's integer square root and the SNES pixel/subpixel combination.
 */
module FixedMath {
  import opened CInt
  import opened SmTypes

  /** fx_abs; the negation of INT32_MIN overflows in C, so that input is excluded. */
  function FxAbs(a: fx32): (r: fx32)
    requires a != INT32_MIN
    ensures r >= 0 && (r == a || r == -a)
  {
    if a < 0 then -a else a
  }

  function FxMin(a: fx32, b: fx32): (r: fx32)
    ensures r == a || r == b
    ensures r <= a && r <= b
  {
    if a < b then a else b
  }

  function FxMax(a: fx32, b: fx32): (r: fx32)
    ensures r == a || r == b
    ensures r >= a && r >= b
  {
    if a > b then a else b
  }

  lemma MinBelowMax(a: fx32, b: fx32)
    ensures FxMin(a, b) <= FxMax(a, b)
  {
  }

  /** fx_clamp tests the lower bound first, so for lo > hi a value below lo yields lo. */
  function FxClamp(v: fx32, lo: fx32, hi: fx32): (r: fx32)
    ensures lo <= hi ==> lo <= r <= hi
    ensures lo <= v <= hi ==> r == v
    ensures v < lo ==> r == lo
    ensures lo <= v && v > hi ==> r == hi
  {
    if v < lo then lo else if v > hi then hi else v
  }

  /** The range conditions under which fx_lerp's subtraction, product and sum stay in int32. */
  predicate LerpFits(a: fx32, b: fx32, t: fx32)
  {
    IsInt32(b - a) && MulFits(t, b - a) && IsInt32(a + (t * (b - a)) / FX_ONE)
  }

  /** fx_lerp: a + fx_mul(t, b - a). */
  function FxLerp(a: fx32, b: fx32, t: fx32): (r: fx32)
    requires LerpFits(a, b, t)
    ensures t == 0 ==> r == a
    ensures t == FX_ONE ==> r == b
    ensures (r - a) * FX_ONE <= t * (b - a) < (r - a) * FX_ONE + FX_ONE
  {
    a + FxMul(t, b - a)
  }

  /**
   * sin_lut[i] = round(sin(i * 2 pi / 256) * 65536), stored as eight rows of 32
   * entries: entry i is row i / 32, column i % 32.
   */
  const SIN_ROWS: seq<seq<int>> :=
    [SIN_LUT_0, SIN_LUT_1, SIN_LUT_2, SIN_LUT_3, SIN_LUT_4, SIN_LUT_5, SIN_LUT_6, SIN_LUT_7]

  function SinLut(i: int): int
    requires 0 <= i < 256
  {
    LutShape();
    SIN_ROWS[i / 32][i % 32]
  }

  lemma LutShape()
    ensures |SIN_ROWS| == 8 && forall k :: 0 <= k < 8 ==> |SIN_ROWS[k]| == 32
  {
  }

  const SIN_LUT_0: seq<int> := [
    0x00000, 0x00648, 0x00C90, 0x012D5, 0x01918, 0x01F56, 0x02590, 0x02BC4,
    0x031F1, 0x03817, 0x03E34, 0x04447, 0x04A50, 0x0504D, 0x0563E, 0x05C22,
    0x061F8, 0x067BE, 0x06D74, 0x0731A, 0x078AD, 0x07E2F, 0x0839C, 0x088F6,
    0x08E3A, 0x09368, 0x09880, 0x09D80, 0x0A268, 0x0A736, 0x0ABEB, 0x0B086]

  const SIN_LUT_1: seq<int> := [
    0x0B505, 0x0B968, 0x0BDAF, 0x0C1D8, 0x0C5E4, 0x0C9D1, 0x0CD9F, 0x0D14D,
    0x0D4DB, 0x0D848, 0x0DB94, 0x0DEBE, 0x0E1C6, 0x0E4AA, 0x0E76C, 0x0EA0A,
    0x0EC83, 0x0EED9, 0x0F109, 0x0F314, 0x0F4FA, 0x0F6BA, 0x0F854, 0x0F9C8,
    0x0FB15, 0x0FC3B, 0x0FD3B, 0x0FE13, 0x0FEC4, 0x0FF4E, 0x0FFB1, 0x0FFEC]

  const SIN_LUT_2: seq<int> := [
    0x10000, 0x0FFEC, 0x0FFB1, 0x0FF4E, 0x0FEC4, 0x0FE13, 0x0FD3B, 0x0FC3B,
    0x0FB15, 0x0F9C8, 0x0F854, 0x0F6BA, 0x0F4FA, 0x0F314, 0x0F109, 0x0EED9,
    0x0EC83, 0x0EA0A, 0x0E76C, 0x0E4AA, 0x0E1C6, 0x0DEBE, 0x0DB94, 0x0D848,
    0x0D4DB, 0x0D14D, 0x0CD9F, 0x0C9D1, 0x0C5E4, 0x0C1D8, 0x0BDAF, 0x0B968]

  const SIN_LUT_3: seq<int> := [
    0x0B505, 0x0B086, 0x0ABEB, 0x0A736, 0x0A268, 0x09D80, 0x09880, 0x09368,
    0x08E3A, 0x088F6, 0x0839C, 0x07E2F, 0x078AD, 0x0731A, 0x06D74, 0x067BE,
    0x061F8, 0x05C22, 0x0563E, 0x0504D, 0x04A50, 0x04447, 0x03E34, 0x03817,
    0x031F1, 0x02BC4, 0x02590, 0x01F56, 0x01918, 0x012D5, 0x00C90, 0x00648]

  const SIN_LUT_4: seq<int> := [
    0x00000, -0x00648, -0x00C90, -0x012D5, -0x01918, -0x01F56, -0x02590, -0x02BC4,
    -0x031F1, -0x03817, -0x03E34, -0x04447, -0x04A50, -0x0504D, -0x0563E, -0x05C22,
    -0x061F8, -0x067BE, -0x06D74, -0x0731A, -0x078AD, -0x07E2F, -0x0839C, -0x088F6,
    -0x08E3A, -0x09368, -0x09880, -0x09D80, -0x0A268, -0x0A736, -0x0ABEB, -0x0B086]

  const SIN_LUT_5: seq<int> := [
    -0x0B505, -0x0B968, -0x0BDAF, -0x0C1D8, -0x0C5E4, -0x0C9D1, -0x0CD9F, -0x0D14D,
    -0x0D4DB, -0x0D848, -0x0DB94, -0x0DEBE, -0x0E1C6, -0x0E4AA, -0x0E76C, -0x0EA0A,
    -0x0EC83, -0x0EED9, -0x0F109, -0x0F314, -0x0F4FA, -0x0F6BA, -0x0F854, -0x0F9C8,
    -0x0FB15, -0x0FC3B, -0x0FD3B, -0x0FE13, -0x0FEC4, -0x0FF4E, -0x0FFB1, -0x0FFEC]

  const SIN_LUT_6: seq<int> := [
    -0x10000, -0x0FFEC, -0x0FFB1, -0x0FF4E, -0x0FEC4, -0x0FE13, -0x0FD3B, -0x0FC3B,
    -0x0FB15, -0x0F9C8, -0x0F854, -0x0F6BA, -0x0F4FA, -0x0F314, -0x0F109, -0x0EED9,
    -0x0EC83, -0x0EA0A, -0x0E76C, -0x0E4AA, -0x0E1C6, -0x0DEBE, -0x0DB94, -0x0D848,
    -0x0D4DB, -0x0D14D, -0x0CD9F, -0x0C9D1, -0x0C5E4, -0x0C1D8, -0x0BDAF, -0x0B968]

  const SIN_LUT_7: seq<int> := [
    -0x0B505, -0x0B086, -0x0ABEB, -0x0A736, -0x0A268, -0x09D80, -0x09880, -0x09368,
    -0x08E3A, -0x088F6, -0x0839C, -0x07E2F, -0x078AD, -0x0731A, -0x06D74, -0x067BE,
    -0x061F8, -0x05C22, -0x0563E, -0x0504D, -0x04A50, -0x04447, -0x03E34, -0x03817,
    -0x031F1, -0x02BC4, -0x02590, -0x01F56, -0x01918, -0x012D5, -0x00C90, -0x00648]

  /** `angle & 0xFF` on a two's-complement int: the angle modulo 256. */
  function AngleIndex(angle: int): (i: int)
    ensures 0 <= i < 256
    ensures (angle - i) % 256 == 0
  {
    angle % 256
  }

  function FxSin(angle: int): (r: fx32)
    ensures -FX_ONE <= r <= FX_ONE
  {
    LutInRange();
    SinLut(AngleIndex(angle))
  }

  function FxCos(angle: int): (r: fx32)
    ensures -FX_ONE <= r <= FX_ONE
  {
    LutInRange();
    SinLut(AngleIndex(angle + 64))
  }

  predicate RowInRangeP(row: seq<int>)
  {
    forall j :: 0 <= j < |row| ==> -FX_ONE <= row[j] <= FX_ONE
  }

  lemma FirstRowsInRange(row: seq<int>)
    requires row == SIN_LUT_0 || row == SIN_LUT_1 || row == SIN_LUT_2 || row == SIN_LUT_3
    ensures RowInRangeP(row)
  {
  }

  lemma LastRowsInRange(row: seq<int>)
    requires row == SIN_LUT_4 || row == SIN_LUT_5 || row == SIN_LUT_6 || row == SIN_LUT_7
    ensures RowInRangeP(row)
  {
  }

  /** Every row entry lies in [-1.0, 1.0]. */
  lemma RowsInRange(k: int, j: int)
    requires 0 <= k < 8 && 0 <= j < 32
    ensures -FX_ONE <= SIN_ROWS[k][j] <= FX_ONE
  {
    if k < 4 {
      FirstRowsInRange(SIN_ROWS[k]);
    } else {
      LastRowsInRange(SIN_ROWS[k]);
    }
  }

  lemma LutInRange()
    ensures forall i :: 0 <= i < 256 ==> -FX_ONE <= SinLut(i) <= FX_ONE
  {
    forall i | 0 <= i < 256
      ensures -FX_ONE <= SinLut(i) <= FX_ONE
    {
      RowsInRange(i / 32, i % 32);
    }
  }

  predicate Negates(a: seq<int>, b: seq<int>)
  {
    |a| == |b| && forall j :: 0 <= j < |a| ==> b[j] == -a[j]
  }

  lemma Row0Negated(a: seq<int>, b: seq<int>)
    requires a == SIN_LUT_0 && b == SIN_LUT_4
    ensures Negates(a, b)
  {
  }

  lemma Row1Negated(a: seq<int>, b: seq<int>)
    requires a == SIN_LUT_1 && b == SIN_LUT_5
    ensures Negates(a, b)
  {
  }

  lemma Row2Negated(a: seq<int>, b: seq<int>)
    requires a == SIN_LUT_2 && b == SIN_LUT_6
    ensures Negates(a, b)
  {
  }

  lemma Row3Negated(a: seq<int>, b: seq<int>)
    requires a == SIN_LUT_3 && b == SIN_LUT_7
    ensures Negates(a, b)
  {
  }

  /** Row k + 4 of the table negates row k. */
  lemma RowNegated(k: int)
    requires 0 <= k < 4
    ensures Negates(SIN_ROWS[k], SIN_ROWS[k + 4])
  {
    match k
    case 0 => Row0Negated(SIN_ROWS[0], SIN_ROWS[4]);
    case 1 => Row1Negated(SIN_ROWS[1], SIN_ROWS[5]);
    case 2 => Row2Negated(SIN_ROWS[2], SIN_ROWS[6]);
    case 3 => Row3Negated(SIN_ROWS[3], SIN_ROWS[7]);
  }

  /** The second half-turn negates the first: sin_lut[i + 128] == -sin_lut[i]. */
  lemma LutAntisymmetric()
    ensures forall i :: 0 <= i < 128 ==> SinLut(i + 128) == -SinLut(i)
  {
    forall i | 0 <= i < 128
      ensures SinLut(i + 128) == -SinLut(i)
    {
      RowNegated(i / 32);
      assert (i + 128) / 32 == i / 32 + 4 && (i + 128) % 32 == i % 32;
    }
  }

  lemma SinIsPeriodic(angle: int)
    ensures FxSin(angle) == FxSin(angle % 256)
  {
    assert AngleIndex(angle % 256) == AngleIndex(angle);
  }

  lemma SinQuadrants()
    ensures FxSin(0) == 0 && FxSin(64) == FX_ONE && FxSin(128) == 0 && FxSin(192) == -FX_ONE
  {
    assert AngleIndex(0) == 0 && AngleIndex(64) == 64;
    assert AngleIndex(128) == 128 && AngleIndex(192) == 192;
  }

  lemma CosIsShiftedSin(angle: int)
    ensures FxCos(angle) == FxSin(angle + 64)
  {
    assert AngleIndex(angle + 64) == (angle + 64) % 256;
  }

  // ---------------------------------------------------------------------
  // Newton square root
  // ---------------------------------------------------------------------

  /** The starting guess of fx_sqrt for the shifted radicand. */
  function InitialGuess(v: int): (g: int)
    ensures g > 0
  {
    if v > 0x1_0000_0000 then 0x100_0000 else 0x1_0000
  }

  /** One Newton step for the integer root of v. */
  function NewtonStep(g: int, v: int): int
    requires g > 0 && v >= 0
  {
    (g + v / g) / 2
  }

  lemma SquareIdentity(s: int, g: int)
    ensures (2 * s - g) * g == s * s - (s - g) * (s - g)
  {
  }

  /** A Newton step never lands below the integer square root (AM-GM, in integers). */
  lemma NewtonStepStaysAbove(g: int, v: int)
    requires g > 0 && v >= 0
    ensures (NewtonStep(g, v) + 1) * (NewtonStep(g, v) + 1) > v
  {
    var q := v / g;
    var s := NewtonStep(g, v) + 1;
    assert v < (q + 1) * g by {
      assert v == q * g + v % g;
    }
    assert q + 1 <= 2 * s - g;
    MulMono(q + 1, 2 * s - g, g);
    SquareIdentity(s, g);
    SquareNonNegative(s - g);
  }

  lemma SquareNonNegative(x: int)
    ensures x * x >= 0
  {
    if x < 0 {
      assert x * x == (-x) * (-x);
    }
  }

  /** When the step does not decrease the guess, the guess squared is at most v. */
  lemma NoProgressMeansRoot(g: int, v: int)
    requires g > 0 && v >= 0
    requires NewtonStep(g, v) >= g
    ensures g * g <= v
  {
    var q := v / g;
    assert v == q * g + v % g;
    assert q >= g;
    assert q * g >= g * g;
  }

  lemma NewtonStepPositive(g: int, v: int)
    requires g > 0 && v >= 1
    ensures NewtonStep(g, v) >= 1
  {
    if g == 1 {
      assert v / g == v;
    } else {
      assert v / g >= 0;
    }
  }

  lemma InitialGuessAbove(a: int)
    requires 0 < a <= INT32_MAX
    ensures (InitialGuess(a * FX_ONE) + 1) * (InitialGuess(a * FX_ONE) + 1) > a * FX_ONE
  {
  }

  predicate StrictlyDecreasing(s: seq<int>)
  {
    forall i, j :: 0 <= i < j < |s| ==> s[i] > s[j]
  }

  /**
   * fx_sqrt: the Newton iteration for the integer root of a << 16, capped at
   * 16 updates. `guesses` is the sequence of values the guess takes.
   */
  method FxSqrt(a: fx32) returns (r: fx32, ghost guesses: seq<int>)
    ensures a <= 0 ==> r == 0
    ensures a > 0 ==> 1 <= r <= InitialGuess(a * FX_ONE)
    ensures a > 0 ==> (r + 1) * (r + 1) > a * FX_ONE
    ensures a > 0 && |guesses| < 17 ==> r * r <= a * FX_ONE
    ensures a > 0 ==> 1 <= |guesses| <= 17 && guesses[0] == InitialGuess(a * FX_ONE)
    ensures a > 0 ==> guesses[|guesses| - 1] == r && StrictlyDecreasing(guesses)
  {
    if a <= 0 {
      return 0, [];
    }
    var v := a * FX_ONE;
    var guess := InitialGuess(v);
    InitialGuessAbove(a);
    guesses := [guess];
    var converged := false;
    var i := 0;
    while i < 16 && !converged
      invariant 0 <= i <= 16
      invariant 1 <= guess <= InitialGuess(v)
      invariant (guess + 1) * (guess + 1) > v
      invariant |guesses| == i + 1 && guesses[0] == InitialGuess(v)
      invariant guesses[i] == guess && StrictlyDecreasing(guesses)
      invariant converged ==> guess * guess <= v
      decreases 16 - i, if converged then 0 else 1
    {
      if guess == 0 {
        // The source breaks out here; the guess stays positive, so this is unreachable.
        assert false;
      }
      var next := NewtonStep(guess, v);
      NewtonStepStaysAbove(guess, v);
      if next >= guess {
        NoProgressMeansRoot(guess, v);
        converged := true;
      } else {
        NewtonStepPositive(guess, v);
        guess := next;
        guesses := guesses + [guess];
        i := i + 1;
      }
    }
    r := guess;
  }

  // ---------------------------------------------------------------------
  // SNES subpixels
  // ---------------------------------------------------------------------

  /**
   * fx_from_snes: `(pixel << 16) | subpixel`; the shifted pixel has zero low
   * bits, so the OR places the subpixel in the fraction.
   */
  function FxFromSnes(pixel: int, subpixel: int): (r: fx32)
    requires IsInt16(pixel) && IsUint16(subpixel)
    ensures FxToInt(r) == pixel && FracBits(r) == subpixel
  {
    pixel * FX_ONE + subpixel
  }
}
