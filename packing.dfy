/** Packing of one pixel into the 32-bit value the display surface expects:
    alpha in the highest byte, then blue, green and red (`Pixel::rgb2bgr`). */
module Packing {

  /** The opaque alpha byte, already in place: `255 << 24`. */
  const Alpha: bv32 := 0xFF00_0000

  const Modulus := 0x1_0000_0000

  predicate IsByte(x: int) { 0 <= x < 256 }

  function Red(p: bv32): int { (p & 0xFF) as int }
  function Green(p: bv32): int { ((p >> 8) & 0xFF) as int }
  function Blue(p: bv32): int { ((p >> 16) & 0xFF) as int }
  function AlphaOf(p: bv32): int { (p >> 24) as int }

  function LowBit(y: int): bv32 {
    if y % 2 == 1 then 1 else 0
  }

  /** The 32-bit word whose unsigned value is `y`, built bit by bit. The
      direct conversion `y as bv32` would do, but the solver cannot relate
      it back to `y` (it has no usable theory of int-to-bit-vector
      conversion), so the words are built by halving, which induction can
      follow. */
  function Word(y: int): bv32
    requires 0 <= y < Modulus
    decreases y
  {
    if y == 0 then 0 else (Word(y / 2) << 1) | LowBit(y)
  }

  /** The 32-bit two's-complement image of a C++ `int`. */
  function Bits(x: int): bv32 {
    Word(x % Modulus)
  }

  lemma LowBitValue(y: int)
    ensures LowBit(y) < 2 && LowBit(y) as int == y % 2
  {
    if y % 2 == 1 { assert LowBit(y) == 1; } else { assert LowBit(y) == 0; }
  }

  lemma ShiftIn(v: bv32, bit: bv32)
    requires v < 128 && bit < 2
    ensures ((v << 1) | bit) as int == 2 * (v as int) + bit as int
  {
  }

  lemma ByteBound(v: bv32)
    requires v as int < 256
    ensures v < 256
  {
  }

  lemma HalfByteBound(v: bv32)
    requires v as int < 128
    ensures v < 128
  {
  }

  lemma WordStep(y: int)
    requires 0 < y < 256
    ensures Word(y) == (Word(y / 2) << 1) | LowBit(y)
  {
  }

  lemma {:induction false} WordOfByte(y: int)
    requires IsByte(y)
    ensures Word(y) as int == y
    decreases y
  {
    if y != 0 {
      var high := Word(y / 2);
      WordOfByte(y / 2);
      HalfByteBound(high);
      LowBitValue(y);
      ShiftIn(high, LowBit(y));
      WordStep(y);
    }
  }

  /** On 0..255 the image is the value itself. */
  lemma BitsOfByte(y: int)
    requires IsByte(y)
    ensures Bits(y) < 256 && Bits(y) as int == y
  {
    assert y % Modulus == y;
    WordOfByte(y);
    ByteBound(Word(y));
  }

  lemma ByteLanes(r: bv32, g: bv32, b: bv32)
    requires r < 256 && g < 256 && b < 256
    ensures var p := Alpha | (b << 16) | (g << 8) | r;
      p & 0xFF == r && (p >> 8) & 0xFF == g && (p >> 16) & 0xFF == b
  {
  }

  /** `(255 << 24) | (b << 16) | (g << 8) | r`, with shifts that wrap modulo 2^32. */
  function Pack(r: int, g: int, b: int): bv32 {
    Alpha | (Bits(b) << 16) | (Bits(g) << 8) | Bits(r)
  }

  /** The alpha byte is always opaque; channels of 0..255 land in their own
      byte and can be read back, larger ones spill into the neighbouring bytes. */
  lemma PackChannels(r: int, g: int, b: int)
    ensures AlphaOf(Pack(r, g, b)) == 0xFF
    ensures IsByte(r) && IsByte(g) && IsByte(b) ==>
      Red(Pack(r, g, b)) == r && Green(Pack(r, g, b)) == g && Blue(Pack(r, g, b)) == b
  {
    var p := Pack(r, g, b);
    assert AlphaOf(p) == 0xFF;
    if IsByte(r) && IsByte(g) && IsByte(b) {
      BitsOfByte(r);
      BitsOfByte(g);
      BitsOfByte(b);
      ByteLanes(Bits(r), Bits(g), Bits(b));
    }
  }

  /** Two byte-valued pixels pack to the same value only if they are the same pixel. */
  lemma PackInjective(r: int, g: int, b: int, r': int, g': int, b': int)
    requires IsByte(r) && IsByte(g) && IsByte(b) && IsByte(r') && IsByte(g') && IsByte(b')
    requires Pack(r, g, b) == Pack(r', g', b')
    ensures r == r' && g == g' && b == b'
  {
    PackChannels(r, g, b);
    PackChannels(r', g', b');
  }

  lemma PackExample()
    ensures Pack(10, 20, 30) == 0xFF1E_140A
    ensures Pack(255, 0, 0) == 0xFF00_00FF
    ensures Pack(0, 255, 0) == 0xFF00_FF00
  {
  }
}
