/** Java Card's primitive integer types and the narrowing casts the applet applies to them. */
module JavaTypes {

  /** Java's `byte`: a signed 8-bit two's-complement integer. */
  type Byte = b: int | -0x80 <= b < 0x80

  /** Java's `short`: a signed 16-bit two's-complement integer. */
  type Short = s: int | -0x8000 <= s < 0x8000

  /** The cast `(byte) x`: keeps the low 8 bits of `x` and reads them as two's complement. */
  function ToByte(x: int): (b: Byte)
    ensures (x - b) % 0x100 == 0
    ensures -0x80 <= x < 0x80 ==> b == x
  {
    var low := x % 0x100;
    if low < 0x80 then low else low - 0x100
  }

  /** The cast `(short) x`: keeps the low 16 bits of `x` and reads them as two's complement. */
  function ToShort(x: int): (s: Short)
    ensures (x - s) % 0x1_0000 == 0
    ensures -0x8000 <= x < 0x8000 ==> s == x
  {
    var low := x % 0x1_0000;
    if low < 0x8000 then low else low - 0x1_0000
  }

  /** `x & 0xFF` for a byte `x` promoted to int: the byte read as unsigned. */
  function Unsigned(x: Byte): (u: int)
    ensures 0 <= u < 0x100
    ensures u == x || u == x + 0x100
  {
    x % 0x100
  }
}

/** The big-endian 16-bit encoding used for every amount and every reply of the wallet. */
module ShortCodec {
  import opened JavaTypes

  datatype BytePair = BytePair(hi: Byte, lo: Byte)

  /**
   * `(short) ((f << 8) | (s & 0xFF))`. The low byte of `f << 8` is zero and
   * `s & 0xFF` is below 0x100, so the bitwise or is an addition.
   */
  function Decode(f: Byte, s: Byte): (v: Short)
    ensures v / 0x100 == f
    ensures v % 0x100 == Unsigned(s)
  {
    ToShort(f * 0x100 + Unsigned(s))
  }

  /** `(byte) (v >> 8)` and `(byte) (v & 0xFF)`: the arithmetic shift is floor division. */
  function Encode(v: Short): (p: BytePair)
    ensures Unsigned(p.lo) == v % 0x100
    ensures p.hi == v / 0x100
  {
    BytePair(ToByte(v / 0x100), ToByte(v % 0x100))
  }

  /** Two bytes written by Encode read back, through Decode, as the value written. */
  lemma DecodeEncode(v: Short)
    ensures Decode(Encode(v).hi, Encode(v).lo) == v
  {
    var p := Encode(v);
    var w := p.hi * 0x100 + Unsigned(p.lo);
    assert w == (v / 0x100) * 0x100 + v % 0x100;
    assert w == v;
  }

  /** Decode is injective: a decoded value re-encodes to the same two bytes. */
  lemma EncodeDecode(f: Byte, s: Byte)
    ensures Encode(Decode(f, s)) == BytePair(f, s)
  {
    var v := Decode(f, s);
    var p := Encode(v);
    assert p.hi == f;
    assert Unsigned(p.lo) == Unsigned(s);
    assert p.lo == s;
  }
}
