/** Fixed-width arithmetic shared by the whole driver: bit fields inside one register
    byte, little-endian 16-bit words and two's-complement reinterpretation.
    Register bytes are `bv8` and the driver's `uint16_t` values that travel as two bytes
    are `bv16`; numbers computed from bytes (counts, signed samples) are integers. */
module Bits {

  type int8 = x: int | -0x80 <= x < 0x80
  type int16 = x: int | -0x8000 <= x < 0x8000
  type uint16 = x: int | 0 <= x < 0x10000

  /** The low `width` bits set. Shifts and widths are bytes, as in the driver's
      `uint8_t` arithmetic. */
  function Mask(width: bv8): bv8
    requires width <= 8
  {
    ((1 as bv8) << width) - 1
  }

  /** A field of `width` bits starting at bit `shift` lies within one byte. */
  predicate InByte(shift: bv8, width: bv8)
  {
    width <= 8 && shift <= 8 - width
  }

  /** The field of `width` bits starting at bit `shift`, as the getters extract it:
      `(prev >> shift) & mask`. */
  function GetField(b: bv8, shift: bv8, width: bv8): (v: bv8)
    requires InByte(shift, width)
    ensures v <= Mask(width)
  {
    (b >> shift) & Mask(width)
  }

  /** The read-modify-write step of every setter: clear the field, then OR in
      `v << shift`. As in the driver, `v` itself is NOT masked: bits of `v` above the
      field width land in the neighbouring bits (or are cut off at bit 8). */
  function SetField(b: bv8, shift: bv8, width: bv8, v: bv8): bv8
    requires InByte(shift, width)
  {
    (b & !(Mask(width) << shift)) | (v << shift)
  }

  /** A value that fits its field is read back unchanged. */
  lemma SetThenGetField(b: bv8, shift: bv8, width: bv8, v: bv8)
    requires InByte(shift, width) && v <= Mask(width)
    ensures GetField(SetField(b, shift, width, v), shift, width) == v
  {
  }

  /** Two bytes agree on every bit outside the field at `shift`, `width`. */
  predicate SameOutside(b1: bv8, b2: bv8, shift: bv8, width: bv8)
    requires InByte(shift, width)
  {
    b1 & !(Mask(width) << shift) == b2 & !(Mask(width) << shift)
  }

  /** Setting a field to 0 clears exactly its bits, as `prev & ~mask` does. */
  lemma ClearField(b: bv8, shift: bv8, width: bv8)
    requires InByte(shift, width)
    ensures SetField(b, shift, width, 0) == b & !(Mask(width) << shift)
  {
  }

  /** Setting a field that fits leaves every bit outside the field as it was. */
  lemma SetFieldKeepsOtherBits(b: bv8, shift: bv8, width: bv8, v: bv8)
    requires InByte(shift, width) && v <= Mask(width)
    ensures SameOutside(SetField(b, shift, width, v), b, shift, width)
  {
  }

  /** Two fields of one byte are disjoint when one ends before the other starts. */
  predicate Disjoint(shift1: bv8, width1: bv8, shift2: bv8, width2: bv8)
    requires InByte(shift1, width1) && InByte(shift2, width2)
  {
    shift1 + width1 <= shift2 || shift2 + width2 <= shift1
  }

  /** Setting one field does not change a disjoint field of the same byte. */
  lemma SetFieldKeepsDisjointField(b: bv8, shift: bv8, width: bv8, v: bv8, shift2: bv8, width2: bv8)
    requires InByte(shift, width) && InByte(shift2, width2) && v <= Mask(width)
    requires Disjoint(shift, width, shift2, width2)
    ensures GetField(SetField(b, shift, width, v), shift2, width2) == GetField(b, shift2, width2)
  {
    SetFieldKeepsOtherBits(b, shift, width, v);
    SameOutsideKeepsDisjointField(SetField(b, shift, width, v), b, shift, width, shift2, width2);
  }

  /** Bytes that agree outside one field agree on every field disjoint from it. */
  lemma SameOutsideKeepsDisjointField(x: bv8, y: bv8, shift: bv8, width: bv8, shift2: bv8, width2: bv8)
    requires InByte(shift, width) && InByte(shift2, width2)
    requires Disjoint(shift, width, shift2, width2) && SameOutside(x, y, shift, width)
    ensures GetField(x, shift2, width2) == GetField(y, shift2, width2)
  {
    FieldMasksDisjoint(shift, width, shift2, width2);
    SubMask(x, y, Mask(width) << shift, Mask(width2) << shift2);
    SameUnderMask(x, y, shift2, width2);
  }

  /** Bytes that agree under a field's mask have the same field. */
  lemma SameUnderMask(x: bv8, y: bv8, shift: bv8, width: bv8)
    requires InByte(shift, width)
    requires x & (Mask(width) << shift) == y & (Mask(width) << shift)
    ensures GetField(x, shift, width) == GetField(y, shift, width)
  {
    GetFieldOfMasked(x, shift, width);
    GetFieldOfMasked(y, shift, width);
  }

  /** Two bytes that agree outside `m` agree on every mask `n` disjoint from `m`. */
  lemma SubMask(x: bv8, y: bv8, m: bv8, n: bv8)
    requires x & !m == y & !m && n & m == 0
    ensures x & n == y & n
  {
  }

  /** The masks of two disjoint fields share no bit. */
  lemma FieldMasksDisjoint(shift: bv8, width: bv8, shift2: bv8, width2: bv8)
    requires InByte(shift, width) && InByte(shift2, width2)
    requires Disjoint(shift, width, shift2, width2)
    ensures (Mask(width2) << shift2) & (Mask(width) << shift) == 0
  {
  }

  /** A field depends only on the bits under its mask. */
  lemma GetFieldOfMasked(x: bv8, shift: bv8, width: bv8)
    requires InByte(shift, width)
    ensures GetField(x, shift, width) == GetField(x & (Mask(width) << shift), shift, width)
  {
  }

  /** Field isolation needs `v` to fit: an unmasked 3-bit value 8 written into bits 2:0
      sets bit 3, the neighbouring field. */
  lemma UnmaskedValueLeaks()
    ensures GetField(SetField(0, 0, 3, 8), 3, 1) == 1
  {
  }

  /** A byte read as an integer lies in 0..255 and converts back to itself. */
  lemma ByteBack(b: bv8)
    ensures 0 <= b as int < 0x100 && (b as int) as bv8 == b
  {
  }

  /** The little-endian word `hi:lo`, as in `(uint16_t)buf[1] << 8 | buf[0]`. */
  function Word(lo: bv8, hi: bv8): bv16
  {
    (hi as bv16 << 8) | lo as bv16
  }

  /** Low byte of a word, `x & 0xFF`. */
  function Lo(x: bv16): bv8
  {
    (x & 0xFF) as bv8
  }

  /** High byte of a word, `(x >> 8) & 0xFF`. */
  function Hi(x: bv16): bv8
  {
    (x >> 8) as bv8
  }

  /** Splitting a word into its two bytes and joining them again gives the word back. */
  lemma SplitJoin(x: bv16)
    ensures Word(Lo(x), Hi(x)) == x
  {
  }

  /** Joining two bytes and splitting the word gives the bytes back. */
  lemma JoinSplit(lo: bv8, hi: bv8)
    ensures Lo(Word(lo, hi)) == lo && Hi(Word(lo, hi)) == hi
  {
  }

  /** The number a little-endian byte pair stands for, `hi * 256 + lo`: the value the
      driver computes in `(uint16_t)buf[1] << 8 | buf[0]` and then counts with. */
  function WordValue(lo: bv8, hi: bv8): uint16
  {
    ByteBack(lo);
    ByteBack(hi);
    hi as int * 0x100 + lo as int
  }

  /** Two's-complement reading of a 16-bit number, the cast `(int16_t)w`. */
  function Int16(w: uint16): (x: int16)
    ensures x < 0 <==> w >= 0x8000
    ensures (if x < 0 then x + 0x10000 else x) == w
  {
    if w < 0x8000 then w else w - 0x10000
  }

  /** Two's-complement reading of a byte, the cast `(int8_t)b`. */
  function Int8(b: bv8): (x: int8)
    ensures x < 0 <==> b >= 0x80
    ensures (if x < 0 then x + 0x100 else x) == b as int
  {
    ByteBack(b);
    assert b < 0x80 <==> b as int < 0x80;
    if b < 0x80 then b as int else b as int - 0x100
  }
}
