/**
 * A location in the 24-bit address space of the 65816: an 8-bit bank and
 * a 16-bit offset inside it.
 */
module Addresses {
  import opened Binary

  datatype Address = Address(bank: Byte, offset: Word)

  /**
   * `Address::incrementOffsetBy`: moves the offset by `n` bytes, wrapping
   * inside the 64 KB bank; the bank never changes. (Address.hpp is not
   * part of this model; this is the behaviour the bus and the CPU rely on.)
   * Dafny's `%` is Euclidean, so a negative `n` wraps the way unsigned
   * 16-bit arithmetic does.
   */
  function IncrementOffsetBy(a: Address, n: int): Address
  {
    Address(a.bank, (a.offset + n) % 0x1_0000)
  }

  /** Incrementing by `n` and then by `-n` returns to the same address. */
  lemma IncrementThenDecrement(a: Address, n: int)
    ensures IncrementOffsetBy(IncrementOffsetBy(a, n), -n) == a
  {
  }

  /**
   * The three bytes a multi-byte access touches, at the decoded address
   * and one and two bytes after it, are three different locations.
   */
  lemma NextTwoAreDistinct(a: Address)
    ensures IncrementOffsetBy(a, 1) != a
    ensures IncrementOffsetBy(a, 2) != a
    ensures IncrementOffsetBy(a, 2) != IncrementOffsetBy(a, 1)
    ensures IncrementOffsetBy(IncrementOffsetBy(a, 1), 1) == IncrementOffsetBy(a, 2)
  {
  }
}
