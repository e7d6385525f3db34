/**
 * The LC_LZ2 decompressor of the asset tools (tools/lz_decompress.py).
 *
 * A stream is a sequence of chunks, each introduced by a header byte:
 * command in bits 7-5 and length-1 in bits 4-0, or, when bits 7-5 are all
 * set, command in bits 4-2 and a ten-bit length-1 made of bits 1-0 and the
 * next byte. 0xFF ends the stream. On the non-negative ints of a byte,
 * `x >> k & m` is written `x / 2^k % (m + 1)` below.
 */
module ToolsLz {
  import opened ToolsBytes

  const END_MARKER: int := 0xFF
  const DEFAULT_MAX_OUTPUT: int := 0x10000

  /** The largest chunk one command can append. */
  const MAX_CHUNK: int := 1024

  function NormalCommand(b: Byte): int { b / 32 % 8 }

  function NormalLength(b: Byte): int { b % 32 + 1 }

  function ExtendedCommand(b: Byte): int { b / 4 % 8 }

  function ExtendedLength(b: Byte, next: Byte): int { b % 4 * 256 + next + 1 }

  /** The result of one chunk: carry on from `pos` with `out`, stop, or an IndexError. */
  datatype Step = Continue(pos: int, out: seq<Byte>) | Stop | Fail

  /** Command 2: the two bytes alternate, the first at even positions. */
  function WordFill(a: Byte, b: Byte, length: nat): seq<Byte>
  {
    seq(length, i => if i % 2 == 0 then a else b)
  }

  /** Command 3: the byte counts up, wrapping at 256. */
  function IncreasingFill(f: Byte, length: nat): seq<Byte>
  {
    seq(length, i => (f + i) % 256)
  }

  /**
   * Command 4, one byte at a time: each appended byte is read at
   * `ref` + its index in the output as it stands at that moment, or is 0
   * if that lies past its end.
   */
  function BackRef(out: seq<Byte>, ref: int, length: nat): seq<Byte>
    decreases length
  {
    if length == 0 then out
    else BackRef(out + [if 0 <= ref < |out| then out[ref] else 0], ref + 1, length - 1)
  }

  /** The chunk of one command whose argument bytes start at `pos`. */
  function CommandStep(data: seq<Byte>, pos: nat, command: int, length: nat, out: seq<Byte>): (r: Step)
    requires pos <= |data| && length >= 1
    ensures r.Continue? ==> r.pos > pos
  {
    if command == 0 then Continue(pos + length, out + data[pos..Min(pos + length, |data|)])
    else if command == 1 then
      if pos >= |data| then Fail else Continue(pos + 1, out + seq(length, _ => data[pos]))
    else if command == 2 then
      if pos + 1 >= |data| then Fail else Continue(pos + 2, out + WordFill(data[pos], data[pos + 1], length))
    else if command == 3 then
      if pos >= |data| then Fail else Continue(pos + 1, out + IncreasingFill(data[pos], length))
    else if command == 4 then
      if pos + 1 >= |data| then Fail else Continue(pos + 2, BackRef(out, data[pos] as int + data[pos + 1] as int * 256, length))
    else Stop
  }

  /** One iteration of the decoding loop at header position `pos`. */
  function StepAt(data: seq<Byte>, pos: nat, out: seq<Byte>): (r: Step)
    requires pos < |data|
    ensures r.Continue? ==> r.pos > pos
  {
    var b := data[pos];
    if b == END_MARKER then Stop
    else if NormalCommand(b) == 7 then
      if pos + 1 >= |data| then Fail
      else CommandStep(data, pos + 2, ExtendedCommand(b), ExtendedLength(b, data[pos + 1]), out)
    else CommandStep(data, pos + 1, NormalCommand(b), NormalLength(b), out)
  }

  /** The output decoding reaches from header position `pos` with `out` produced so far. */
  function Decode(data: seq<Byte>, pos: nat, out: seq<Byte>, maxOutput: int): Outcome<seq<Byte>>
    decreases |data| - pos
  {
    if pos >= |data| then Ok(out)
    else match StepAt(data, pos, out)
      case Stop => Ok(out)
      case Fail => Raised(IndexError)
      case Continue(p, o) => if |o| >= maxOutput then Ok(o) else Decode(data, p, o, maxOutput)
  }

  /** decompress(data, offset, max_output). */
  method Decompress(data: seq<Byte>, offset: nat, maxOutput: int) returns (r: Outcome<seq<Byte>>)
    ensures r == Decode(data, offset, [], maxOutput)
  {
    var output: seq<Byte> := [];
    var pos := offset;
    while pos < |data|
      invariant Decode(data, pos, output, maxOutput) == Decode(data, offset, [], maxOutput)
      decreases |data| - pos
    {
      ghost var start := pos;
      var cmdByte: int := data[pos];
      pos := pos + 1;
      if cmdByte == END_MARKER {
        return Ok(output);
      }
      var command := cmdByte / 32 % 8;
      var length := cmdByte % 32 + 1;
      if command == 7 {
        command := cmdByte / 4 % 8;
        if pos >= |data| {
          return Raised(IndexError);
        }
        length := cmdByte % 4 * 256 + data[pos] + 1;
        pos := pos + 1;
      }
      var step := RunCommand(data, pos, command, length, output);
      assert step == StepAt(data, start, output);
      match step
      case Stop => return Ok(output);
      case Fail => return Raised(IndexError);
      case Continue(p, o) => pos, output := p, o;
      if |output| >= maxOutput {
        return Ok(output);
      }
    }
    return Ok(output);
  }

  /** The body of one command, with the loops of commands 2, 3 and 4. */
  method RunCommand(data: seq<Byte>, pos: nat, command: int, length: nat, out: seq<Byte>) returns (r: Step)
    requires pos <= |data| && length >= 1
    ensures r == CommandStep(data, pos, command, length, out)
  {
    var output := out;
    if command == 0 {
      output := output + data[pos..Min(pos + length, |data|)];
      return Continue(pos + length, output);
    } else if command == 1 {
      if pos >= |data| {
        return Fail;
      }
      output := output + seq(length, _ => data[pos]);
      return Continue(pos + 1, output);
    } else if command == 2 {
      if pos + 1 >= |data| {
        return Fail;
      }
      var byteA, byteB := data[pos], data[pos + 1];
      for i := 0 to length
        invariant output == out + WordFill(byteA, byteB, i)
      {
        output := output + [if i % 2 == 0 then byteA else byteB];
      }
      return Continue(pos + 2, output);
    } else if command == 3 {
      if pos >= |data| {
        return Fail;
      }
      var fill := data[pos];
      for i := 0 to length
        invariant output == out + IncreasingFill(fill, i)
      {
        output := output + [(fill + i) % 256];
      }
      return Continue(pos + 1, output);
    } else if command == 4 {
      if pos + 1 >= |data| {
        return Fail;
      }
      var ref := data[pos] as int + data[pos + 1] as int * 256;
      for i := 0 to length
        invariant BackRef(output, ref + i, length - i) == BackRef(out, ref, length)
      {
        if ref + i < |output| {
          output := output + [output[ref + i]];
        } else {
          output := output + [0];
        }
      }
      return Continue(pos + 2, output);
    }
    return Stop;
  }

  // ---------------------------------------------------------------------
  // Properties
  // ---------------------------------------------------------------------

  /** The header fields: normal lengths are 1..32, extended ones 1..1024, and 0xE0-0xFE are the extended headers. */
  lemma HeaderFields(b: Byte, next: Byte)
    ensures 0 <= NormalCommand(b) < 8 && 0 <= ExtendedCommand(b) < 8
    ensures 1 <= NormalLength(b) <= 32 && 1 <= ExtendedLength(b, next) <= MAX_CHUNK
    ensures NormalCommand(b) == 7 <==> b >= 0xE0
    ensures b == NormalCommand(b) * 32 + NormalLength(b) - 1
    ensures b >= 0xE0 ==> b == 0xE0 + ExtendedCommand(b) * 4 + (ExtendedLength(b, next) - 1) / 256
  {
  }

  /** 0xFF ends decoding with the output as it is. */
  lemma EndMarkerStops(data: seq<Byte>, pos: nat, out: seq<Byte>, maxOutput: int)
    requires pos < |data| && data[pos] == END_MARKER
    ensures Decode(data, pos, out, maxOutput) == Ok(out)
  {
  }

  /** Commands 5 and 6, and 5, 6 and 7 inside the extended form, end decoding too. */
  lemma UnknownCommandsStop(data: seq<Byte>, pos: nat, out: seq<Byte>, maxOutput: int)
    requires pos < |data| && data[pos] != END_MARKER
    requires NormalCommand(data[pos]) == 5 || NormalCommand(data[pos]) == 6
      || (NormalCommand(data[pos]) == 7 && pos + 1 < |data| && ExtendedCommand(data[pos]) >= 5)
    ensures Decode(data, pos, out, maxOutput) == Ok(out)
  {
  }

  /** An extended header, or a fill command, cut off by the end of the input raises IndexError. */
  lemma TruncatedArgumentsRaise(data: seq<Byte>, out: seq<Byte>, maxOutput: int)
    requires |data| >= 1 && data[|data| - 1] != END_MARKER
    requires NormalCommand(data[|data| - 1]) in {1, 2, 3, 4, 7}
    ensures Decode(data, |data| - 1, out, maxOutput) == Raised(IndexError)
  {
  }

  /** The fill commands append exactly `length` bytes of their pattern. */
  lemma FillChunks(data: seq<Byte>, pos: nat, length: nat, out: seq<Byte>)
    requires pos + 1 < |data| && length >= 1
    ensures CommandStep(data, pos, 1, length, out).out == out + seq(length, _ => data[pos])
    ensures var w := CommandStep(data, pos, 2, length, out).out;
      |w| == |out| + length && w[..|out|] == out
      && forall k :: |out| <= k < |w| ==> w[k] == if (k - |out|) % 2 == 0 then data[pos] else data[pos + 1]
    ensures var c := CommandStep(data, pos, 3, length, out).out;
      |c| == |out| + length && c[..|out|] == out
      && forall k :: |out| <= k < |c| ==> c[k] == (data[pos] + k - |out|) % 256
  {
  }

  /** A literal chunk copies the next `length` input bytes, fewer only at the end of the input. */
  lemma LiteralChunk(data: seq<Byte>, pos: nat, length: nat, out: seq<Byte>)
    requires pos <= |data| && length >= 1
    ensures var r := CommandStep(data, pos, 0, length, out);
      && r.pos == pos + length && r.out[..|out|] == out
      && |r.out| == |out| + Min(length, |data| - pos)
      && r.out[|out|..] == data[pos..pos + Min(length, |data| - pos)]
  {
  }

  /** A back reference that starts past the output pads with zeros only. */
  lemma {:induction false} BackRefPastEndIsZeros(out: seq<Byte>, ref: int, length: nat)
    requires ref >= |out|
    ensures BackRef(out, ref, length) == out + seq(length, _ => 0)
    decreases length
  {
    if length > 0 {
      var out1 := out + [0];
      BackRefPastEndIsZeros(out1, ref + 1, length - 1);
      assert out1 + seq(length - 1, _ => 0) == out + seq(length, _ => 0);
    }
  }

  /**
   * A back reference that starts inside the output copies for its whole
   * length from `|out| - ref` bytes back, reading the bytes it appends
   * itself once it passes the old end, so a short pattern repeats.
   */
  lemma {:induction false} BackRefInsideCopies(out: seq<Byte>, ref: nat, length: nat)
    requires ref < |out|
    ensures var r := BackRef(out, ref, length);
      && |r| == |out| + length && r[..|out|] == out
      && forall k :: |out| <= k < |r| ==> r[k] == r[k - (|out| - ref)]
    decreases length
  {
    if length > 0 {
      var out1 := out + [out[ref]];
      BackRefInsideCopies(out1, ref + 1, length - 1);
      var r := BackRef(out1, ref + 1, length - 1);
      assert BackRef(out, ref, length) == r;
      assert r[..|out1|] == out1;
      assert r[|out|] == out1[|out|] == out[ref] == out1[ref] == r[ref];
    }
  }

  /** Decoding only appends: what was produced before stays a prefix. */
  lemma {:induction false} OutputOnlyGrows(data: seq<Byte>, pos: nat, out: seq<Byte>, maxOutput: int)
    requires Decode(data, pos, out, maxOutput).Ok?
    ensures var r := Decode(data, pos, out, maxOutput).value; |out| <= |r| && r[..|out|] == out
    decreases |data| - pos
  {
    if pos < |data| {
      var s := StepAt(data, pos, out);
      if s.Continue? {
        StepExtends(data, pos, out);
        if |s.out| < maxOutput {
          OutputOnlyGrows(data, s.pos, s.out, maxOutput);
          var r := Decode(data, s.pos, s.out, maxOutput).value;
          assert r[..|out|] == r[..|s.out|][..|out|];
        }
      }
    }
  }

  /** One chunk appends between 0 and 1024 bytes. */
  lemma StepExtends(data: seq<Byte>, pos: nat, out: seq<Byte>)
    requires pos < |data| && StepAt(data, pos, out).Continue?
    ensures var o := StepAt(data, pos, out).out;
      |out| <= |o| <= |out| + MAX_CHUNK && o[..|out|] == out
  {
    var b := data[pos];
    var hp, command, length := if NormalCommand(b) == 7 then pos + 2 else pos + 1,
      if NormalCommand(b) == 7 then ExtendedCommand(b) else NormalCommand(b),
      if NormalCommand(b) == 7 then ExtendedLength(b, data[pos + 1]) else NormalLength(b);
    assert StepAt(data, pos, out) == CommandStep(data, hp, command, length, out);
    if command == 4 {
      var ref := data[hp] as int + data[hp + 1] as int * 256;
      if ref < |out| {
        BackRefInsideCopies(out, ref, length);
      } else {
        BackRefPastEndIsZeros(out, ref, length);
      }
    }
  }

  /**
   * max_output is checked after each chunk, so the output can pass it by
   * at most one chunk: it never exceeds max(|out|, max_output - 1) + 1024.
   */
  lemma {:induction false} OvershootAtMostOneChunk(data: seq<Byte>, pos: nat, out: seq<Byte>, maxOutput: int)
    requires Decode(data, pos, out, maxOutput).Ok?
    ensures |Decode(data, pos, out, maxOutput).value| <= Max(|out|, maxOutput - 1) + MAX_CHUNK
    decreases |data| - pos
  {
    if pos < |data| {
      var s := StepAt(data, pos, out);
      if s.Continue? {
        StepExtends(data, pos, out);
        if |s.out| < maxOutput {
          OvershootAtMostOneChunk(data, s.pos, s.out, maxOutput);
        }
      }
    }
  }

  /** The stream of SmallStreamDecodes: a literal chunk, a byte fill, a back reference into both, the end marker. */
  const SMALL_STREAM: seq<Byte> := [0x02, 7, 8, 9, 0x21, 5, 0x81, 1, 0, 0xFF]

  lemma SmallStreamLiteral()
    ensures StepAt(SMALL_STREAM, 0, []) == Continue(4, [7, 8, 9])
  {
    assert NormalCommand(0x02) == 0 && NormalLength(0x02) == 3;
    assert SMALL_STREAM[1..4] == [7, 8, 9];
  }

  lemma SmallStreamFill()
    ensures StepAt(SMALL_STREAM, 4, [7, 8, 9]) == Continue(6, [7, 8, 9, 5, 5])
  {
    assert NormalCommand(0x21) == 1 && NormalLength(0x21) == 2;
    assert seq(2, _ => SMALL_STREAM[5]) == [5, 5];
  }

  lemma SmallStreamBackRef()
    ensures StepAt(SMALL_STREAM, 6, [7, 8, 9, 5, 5]) == Continue(9, [7, 8, 9, 5, 5, 8, 9])
  {
    assert NormalCommand(0x81) == 4 && NormalLength(0x81) == 2;
    assert BackRef([7, 8, 9, 5, 5], 1, 2) == [7, 8, 9, 5, 5, 8, 9];
  }

  /** A back reference that reads the filled bytes and the literal ones; 0xFF then ends the stream. */
  lemma SmallStreamDecodes()
    ensures Decode(SMALL_STREAM, 0, [], DEFAULT_MAX_OUTPUT) == Ok([7, 8, 9, 5, 5, 8, 9])
  {
    SmallStreamLiteral();
    SmallStreamFill();
    SmallStreamBackRef();
    assert Decode(SMALL_STREAM, 9, [7, 8, 9, 5, 5, 8, 9], DEFAULT_MAX_OUTPUT) == Ok([7, 8, 9, 5, 5, 8, 9]);
    assert Decode(SMALL_STREAM, 4, [7, 8, 9], DEFAULT_MAX_OUTPUT) == Decode(SMALL_STREAM, 6, [7, 8, 9, 5, 5], DEFAULT_MAX_OUTPUT);
  }
}
