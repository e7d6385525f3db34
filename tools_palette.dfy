/**
 * The palette tool of the asset tools (tools/palette_converter.py): SNES
 * and DS colours are both BGR555 words, so the tool checks the data and
 * passes it through unchanged. Its checks only warn, except an odd length,
 * which raises ValueError. The warnings it prints are recorded as values.
 */
module ToolsPalette {
  import opened ToolsBytes

  const DEFAULT_PALETTE_BYTES: int := 512

  /** What the tool prints to stderr before or instead of writing. */
  datatype Warning = SizeMismatch(expected: int, got: int) | ReservedBitSet(invalid: nat, colors: nat)

  /** The warnings of one run, and the bytes written or the exception raised. */
  datatype Conversion = Conversion(warnings: seq<Warning>, result: Outcome<seq<bv8>>)

  /** A little-endian colour word whose bit 15 (unused in BGR555) is set. */
  predicate Reserved(lo: bv8, hi: bv8)
  {
    ((lo as bv16) | ((hi as bv16) << 8)) & 0x8000 != 0
  }

  /** The number of colours among the first n whose bit 15 is set. */
  function InvalidColors(data: seq<bv8>, n: nat): (count: nat)
    requires 2 * n <= |data|
    ensures count <= n
    decreases n
  {
    if n == 0 then 0
    else InvalidColors(data, n - 1) + (if Reserved(data[2 * n - 2], data[2 * n - 1]) then 1 else 0)
  }

  /** convert_palette with the file read and written: the warnings it prints and what it writes. */
  function Convert(data: seq<bv8>, expectedSize: int): Conversion
  {
    var sizeWarning := if |data| != expectedSize then [SizeMismatch(expectedSize, |data|)] else [];
    if |data| % 2 != 0 then Conversion(sizeWarning, Raised(ValueError))
    else
      var invalid := InvalidColors(data, |data| / 2);
      Conversion(sizeWarning + (if invalid > 0 then [ReservedBitSet(invalid, |data| / 2)] else []), Ok(data))
  }

  /** The counting loop of convert_palette. */
  method CountInvalidColors(data: seq<bv8>) returns (invalid: nat)
    requires |data| % 2 == 0
    ensures invalid == InvalidColors(data, |data| / 2)
  {
    var colorCount := |data| / 2;
    invalid := 0;
    for i := 0 to colorCount
      invariant invalid == InvalidColors(data, i)
    {
      var color := (data[i * 2] as bv16) | ((data[i * 2 + 1] as bv16) << 8);
      if color & 0x8000 != 0 {
        invalid := invalid + 1;
      }
    }
  }

  /** convert_palette: the size check, the parity check, the count, and the copy. */
  method ConvertPalette(data: seq<bv8>, expectedSize: int) returns (c: Conversion)
    ensures c == Convert(data, expectedSize)
  {
    var warnings: seq<Warning> := [];
    if |data| != expectedSize {
      warnings := warnings + [SizeMismatch(expectedSize, |data|)];
    }
    if |data| % 2 != 0 {
      return Conversion(warnings, Raised(ValueError));
    }
    var colorCount := |data| / 2;
    var invalid := CountInvalidColors(data);
    if invalid > 0 {
      warnings := warnings + [ReservedBitSet(invalid, colorCount)];
    }
    return Conversion(warnings, Ok(data));
  }

  // ---------------------------------------------------------------------
  // Properties
  // ---------------------------------------------------------------------

  /** Bit 15 of a little-endian word is bit 7 of its second byte. */
  lemma ReservedIsHighBit(lo: bv8, hi: bv8)
    ensures Reserved(lo, hi) <==> hi & 0x80 != 0
  {
  }

  /** The tool raises exactly on an odd length, and otherwise writes its input unchanged. */
  lemma OddLengthRaises(data: seq<bv8>, expectedSize: int)
    ensures Convert(data, expectedSize).result == Raised(ValueError) <==> |data| % 2 != 0
    ensures Convert(data, expectedSize).result.Ok? ==> Convert(data, expectedSize).result.value == data
  {
  }

  /**
   * The expected size only decides a warning: what is written (or raised)
   * is the same for every expected size, and the mismatch warning comes
   * first exactly when the sizes differ.
   */
  lemma SizeOnlyWarns(data: seq<bv8>, e1: int, e2: int)
    ensures Convert(data, e1).result == Convert(data, e2).result
    ensures |data| != e1 <==> |Convert(data, e1).warnings| > 0 && Convert(data, e1).warnings[0] == SizeMismatch(e1, |data|)
  {
  }

  /** The bit-15 warning reports the count and is printed exactly when the count is positive. */
  lemma ReservedWarning(data: seq<bv8>)
    requires |data| % 2 == 0
    ensures var c := Convert(data, |data|);
      && (c.warnings == [] <==> InvalidColors(data, |data| / 2) == 0)
      && (c.warnings != [] ==> c.warnings == [ReservedBitSet(InvalidColors(data, |data| / 2), |data| / 2)])
  {
  }

  /** No colour is counted exactly when every colour of the prefix has bit 15 clear. */
  lemma {:induction false} NoneInvalid(data: seq<bv8>, n: nat)
    requires 2 * n <= |data|
    ensures InvalidColors(data, n) == 0 <==> forall i :: 0 <= i < n ==> !Reserved(data[2 * i], data[2 * i + 1])
    decreases n
  {
    if n > 0 {
      NoneInvalid(data, n - 1);
      var m := n - 1;
      assert data[2 * n - 2] == data[2 * m] && data[2 * n - 1] == data[2 * m + 1];
      assert (forall i :: 0 <= i < n ==> !Reserved(data[2 * i], data[2 * i + 1]))
        <==> (forall i :: 0 <= i < m ==> !Reserved(data[2 * i], data[2 * i + 1])) && !Reserved(data[2 * m], data[2 * m + 1]);
    }
  }

  /** Every colour counted: the count reaches n exactly when all of the first n colours have bit 15 set. */
  lemma {:induction false} AllInvalid(data: seq<bv8>, n: nat)
    requires 2 * n <= |data|
    ensures InvalidColors(data, n) == n <==> forall i :: 0 <= i < n ==> Reserved(data[2 * i], data[2 * i + 1])
    decreases n
  {
    if n > 0 {
      AllInvalid(data, n - 1);
      var m := n - 1;
      assert data[2 * n - 2] == data[2 * m] && data[2 * n - 1] == data[2 * m + 1];
      assert (forall i :: 0 <= i < n ==> Reserved(data[2 * i], data[2 * i + 1]))
        <==> (forall i :: 0 <= i < m ==> Reserved(data[2 * i], data[2 * i + 1])) && Reserved(data[2 * m], data[2 * m + 1]);
    }
  }

  /** Counting two palettes one after the other adds their counts. */
  lemma {:induction false} CountsAdd(a: seq<bv8>, b: seq<bv8>, n: nat)
    requires |a| % 2 == 0 && 2 * n <= |b|
    ensures InvalidColors(a + b, |a| / 2 + n) == InvalidColors(a, |a| / 2) + InvalidColors(b, n)
    decreases n
  {
    if n == 0 {
      PrefixCount(a + b, a, |a| / 2);
    } else {
      CountsAdd(a, b, n - 1);
      var k := |a| / 2 + n;
      assert (a + b)[2 * k - 2] == b[2 * n - 2] && (a + b)[2 * k - 1] == b[2 * n - 1];
    }
  }

  /** The count over the first n colours only reads those colours. */
  lemma {:induction false} PrefixCount(data: seq<bv8>, prefix: seq<bv8>, n: nat)
    requires 2 * n <= |prefix| <= |data| && prefix == data[..|prefix|]
    ensures InvalidColors(data, n) == InvalidColors(prefix, n)
    decreases n
  {
    if n > 0 {
      PrefixCount(data, prefix, n - 1);
      assert data[2 * n - 2] == prefix[2 * n - 2] && data[2 * n - 1] == prefix[2 * n - 1];
    }
  }
}
