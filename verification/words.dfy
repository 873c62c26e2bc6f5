/** Fixed-width unsigned integers, as unbounded integers with their range. */
module Words {
  /** An unsigned 8-bit value: one byte of input or of a canonical digest. */
  type Byte = x: int | 0 <= x < 0x100

  /** C `unsigned int`: an XXH32 seed or hash value. */
  type U32 = x: int | 0 <= x < 0x1_0000_0000

  /** C `unsigned long long`: an XXH64 seed or hash value. */
  type U64 = x: int | 0 <= x < 0x1_0000_0000_0000_0000
}
