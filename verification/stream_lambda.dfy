/**
 * The raw-stream handler: reads the input one byte at a time, upper-cases it
 * with `Character.toUpperCase(int)` and writes the low 8 bits of the result,
 * until end of stream.
 */
module StreamLambda {

  /** A byte of the input or output stream, as an unsigned value. */
  newtype byte = b: int | 0 <= b < 256

  /** End of stream as `InputStream.read()` reports it. */
  const EndOfStream: int := -1

  /** `inputStream.read()` at position `pos`: the next byte as 0..255, or -1 once the input is used up. */
  function Read(input: seq<byte>, pos: nat): (c: int)
    ensures -1 <= c < 256
    ensures c == EndOfStream <==> pos >= |input|
    ensures pos < |input| ==> c == input[pos] as int
  {
    if pos < |input| then input[pos] as int else EndOfStream
  }

  predicate IsAsciiLower(c: int) {
    'a' as int <= c <= 'z' as int
  }

  /**
   * `Character.toUpperCase(int)` on the code points 0..255 that `read()` can
   * return, taken from the Unicode simple uppercase mapping: ASCII and Latin-1
   * small letters move down by 0x20, except that U+00B5 maps to U+039C and U+00FF
   * maps to U+0178. U+00DF has no single-character uppercase, and U+00F7 (the
   * division sign) is not a letter; both are unchanged.
   */
  function ToUpperCase(c: int): (u: int)
    requires 0 <= c < 256
    ensures IsAsciiLower(c) ==> u == c - 0x20
    ensures 0 <= c < 0x80 && !IsAsciiLower(c) ==> u == c
    ensures 0 <= u
  {
    if IsAsciiLower(c) then c - 0x20
    else if c == 0xB5 then 0x39C
    else if c == 0xFF then 0x178
    else if 0xE0 <= c <= 0xFE && c != 0xF7 then c - 0x20
    else c
  }

  /** `outputStream.write(int)`: only the low 8 bits of the argument are written. */
  function Write(c: int): byte
    requires 0 <= c
  {
    (c % 256) as byte
  }

  /** What the handler writes for one input byte. */
  function UpperByte(b: byte): byte {
    Write(ToUpperCase(b as int))
  }

  /** The whole output as a position-wise map of the input. */
  function Uppercased(s: seq<byte>): seq<byte> {
    seq(|s|, i requires 0 <= i < |s| => UpperByte(s[i]))
  }

  /**
   * `handleRequest`: the read/upper-case/write loop. Exactly one byte is
   * written per byte read, in order, and each depends only on the byte read.
   */
  method HandleRequest(input: seq<byte>) returns (output: seq<byte>)
    ensures |output| == |input|
    ensures forall i :: 0 <= i < |input| ==> output[i] == UpperByte(input[i])
    ensures output == Uppercased(input)
  {
    output := [];
    var pos := 0;
    var letter := Read(input, pos);
    while letter != EndOfStream
      invariant 0 <= pos <= |input|
      invariant letter == Read(input, pos)
      invariant |output| == pos
      invariant forall i :: 0 <= i < pos ==> output[i] == UpperByte(input[i])
      decreases |input| - pos
    {
      var character := ToUpperCase(letter);
      output := output + [Write(character)];
      pos := pos + 1;
      letter := Read(input, pos);
    }
  }

  predicate IsAscii(b: byte) {
    b < 0x80
  }

  /** The ASCII case mapping, stated on its own: `a`..`z` to `A`..`Z`, every other ASCII byte kept. */
  function AsciiUpper(b: byte): byte
    requires IsAscii(b)
  {
    if IsAsciiLower(b as int) then b - 0x20 else b
  }

  /** On ASCII bytes the handler applies exactly the ASCII case mapping. */
  lemma UpperByteOnAscii(b: byte)
    requires IsAscii(b)
    ensures UpperByte(b) == AsciiUpper(b)
    ensures IsAscii(UpperByte(b))
  {
  }

  /** ASCII in, ASCII out: no lower-case letter survives, and a second pass changes nothing. */
  lemma AsciiIdempotent(s: seq<byte>)
    requires forall i :: 0 <= i < |s| ==> IsAscii(s[i])
    ensures forall i :: 0 <= i < |s| ==> IsAscii(Uppercased(s)[i])
    ensures forall i :: 0 <= i < |s| ==> !IsAsciiLower(Uppercased(s)[i] as int)
    ensures Uppercased(Uppercased(s)) == Uppercased(s)
  {
    var u := Uppercased(s);
    forall i | 0 <= i < |s|
      ensures IsAscii(u[i]) && UpperByte(u[i]) == u[i]
    {
      UpperByteOnAscii(s[i]);
      UpperByteOnAscii(u[i]);
    }
  }

  /** Empty input, empty output. */
  lemma EmptyStream()
    ensures Uppercased([]) == []
  {
  }

  /**
   * Outside ASCII the 8-bit truncation shows: U+00FF upper-cases to U+0178,
   * written as 0x78, a lower-case 'x', which a second pass turns into 'X'.
   */
  lemma LatinSmallYDiaeresis()
    ensures UpperByte(0xFF) == 'x' as int as byte
    ensures UpperByte(UpperByte(0xFF)) == 'X' as int as byte
    ensures UpperByte(0xB5) == 0x9C
  {
  }
}
