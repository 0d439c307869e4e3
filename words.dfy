/** Fixed-width machine words of the driver and the plugin interface, and the
    Option wrapper used for the nullable pointers of the source. */
module Words {

  const UINT64_MODULUS: int := 0x1_0000_0000_0000_0000

  type uint8 = x: int | 0 <= x < 0x100
  type uint32 = x: int | 0 <= x < 0x1_0000_0000
  type uint64 = x: int | 0 <= x < 0x1_0000_0000_0000_0000

  /** One byte of memory. */
  type byte = uint8

  datatype Option<+T> = None | Some(value: T)

  /** The C++ conversion `(uint64_t)x` of an integral value: the unique
      64-bit value congruent to `x` modulo 2^64. */
  function ToUInt64(x: int): (r: uint64)
    ensures 0 <= x < UINT64_MODULUS ==> r == x
    ensures (x - r) % UINT64_MODULUS == 0
  {
    x % UINT64_MODULUS
  }
}
