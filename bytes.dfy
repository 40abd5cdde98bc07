/** Bytes as the protocol-buffer tensors store them. */
module Bytes {
  /** A value below 256 survives a round trip through a byte. */
  lemma ByteRoundTrip(a: int)
    requires 0 <= a < 0x100
    ensures (a as bv8) as int == a
  {
  }
}
