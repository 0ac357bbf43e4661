/** Bytes, bit-fields and the 16-bit word layout that every register access of the driver uses. */
module Bits {

  /** An 8-bit register value or register address, as the bus carries it. */
  type byte = bv8

  /** A run of `width` bits starting at bit `lo` of a byte. avr-gcc allocates the
      members of a bit-field struct from the least significant bit upwards, so a
      union member declared first starts at bit 0. */
  datatype BitField = BitField(lo: bv8, width: bv8) {
    predicate Valid() {
      1 <= width <= 8 && lo < 8 && lo + width <= 8
    }
  }

  type Field = f: BitField | f.Valid() witness BitField(0, 1)

  /** All ones in the low `f.width` bits: the largest value the field can hold. */
  function Ones(f: Field): byte {
    ((1 as bv8) << f.width) - 1
  }

  /** The bits of the byte that belong to the field. */
  function Mask(f: Field): byte {
    Ones(f) << f.lo
  }

  /** Reading a bit-field member of the register union. */
  function GetField(b: byte, f: Field): (v: byte)
    ensures v <= Ones(f)
    ensures v << f.lo == b & Mask(f)
  {
    (b >> f.lo) & Ones(f)
  }

  /** Assigning `v` to a bit-field member of the register union: the value is
      truncated to the field's width and every other bit keeps its value. */
  function SetField(b: byte, f: Field, v: byte): (r: byte)
    ensures GetField(r, f) == v & Ones(f)
    ensures r & !Mask(f) == b & !Mask(f)
  {
    (b & !Mask(f)) | ((v & Ones(f)) << f.lo)
  }

  /** Bit `k` of a byte, as 0 or 1. */
  function Bit(b: byte, k: bv8): (v: byte)
    requires k < 8
    ensures v <= 1
  {
    (b >> k) & 1
  }

  /** A signed 16-bit integer (`int16_t`). */
  type Int16 = x: int | -32768 <= x < 32768

  /** The 16-bit pattern of a word, read as unsigned. */
  function Unsigned(x: Int16): (u: nat)
    ensures u < 65536
    ensures u % 65536 == (x + 65536) % 65536
  {
    if x < 0 then x + 65536 else x
  }

  /** The `DATAL` view of a `data16_t`: the value of bits 0-7 of the two's-complement `DATA`. */
  function LowByte(x: Int16): nat {
    Unsigned(x) % 256
  }

  /** The `DATAH` view of a `data16_t`: the value of bits 8-15 of the two's-complement `DATA`. */
  function HighByte(x: Int16): nat {
    Unsigned(x) / 256
  }

  /** The `DATA` view of a `data16_t` whose `DATAL` holds `l` and `DATAH` holds `h`. */
  function WordOf(l: nat, h: nat): (x: Int16)
    requires l < 256 && h < 256
    ensures LowByte(x) == l && HighByte(x) == h
    ensures x < 0 <==> h >= 128
  {
    var u := h * 256 + l;
    if u < 32768 then u else u - 65536
  }

  /** The word assembled from the two register bytes of an output pair. */
  function Word(lo: byte, hi: byte): (x: Int16)
    ensures LowByte(x) == lo as int && HighByte(x) == hi as int
    ensures x < 0 <==> hi >= 0x80
  {
    WordOf(lo as int, hi as int)
  }

  /** Storing a word's two bytes and reading `DATA` back gives the word: the
      byte views and the word view of the union are inverse to each other. */
  lemma WordOfBytes(x: Int16)
    ensures LowByte(x) < 256 && HighByte(x) < 256
    ensures WordOf(LowByte(x), HighByte(x)) == x
  {
  }

  /** The register pair (0x34, 0x12) is the word 0x1234 and (0xFF, 0xFF) is -1. */
  lemma WordExamples()
    ensures Word(0x34, 0x12) == 4660
    ensures Word(0xFF, 0xFF) == -1
    ensures Word(0x00, 0x80) == -32768
  {
  }
}
