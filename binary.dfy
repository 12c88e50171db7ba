/**
 * Byte and word helpers. The emulator splits and assembles 16-bit values
 * with masks and shifts on unsigned integers; on the non-negative values
 * these take, `& 0xFF` is `% 0x100`, `>> 8` is `/ 0x100` and
 * `(msb << 8) | lsb` is `msb * 0x100 + lsb`, which is how they are written here.
 */
module Binary {
  /** An unsigned 8-bit value (`uint8_t`). */
  type Byte = x: int | 0 <= x < 0x100
  /** An unsigned 16-bit value (`uint16_t`). */
  type Word = x: int | 0 <= x < 0x1_0000

  /** `value & 0xFF`: the least significant byte of a word. */
  function LowByte(w: Word): Byte
  {
    w % 0x100
  }

  /** `(value & 0xFF00) >> 8`: the most significant byte of a word. */
  function HighByte(w: Word): Byte
  {
    w / 0x100
  }

  /** `((uint16_t)msb << 8) | lsb`: the little-endian word of two bytes. */
  function ComposeWord(lsb: Byte, msb: Byte): Word
  {
    msb * 0x100 + lsb
  }

  /** Splitting a word and composing its bytes again gives the word back. */
  lemma SplitThenCompose(w: Word)
    ensures ComposeWord(LowByte(w), HighByte(w)) == w
  {
  }

  /** Composing two bytes and splitting the word gives the bytes back. */
  lemma ComposeThenSplit(lsb: Byte, msb: Byte)
    ensures LowByte(ComposeWord(lsb, msb)) == lsb
    ensures HighByte(ComposeWord(lsb, msb)) == msb
  {
  }
}
