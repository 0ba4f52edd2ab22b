/** The widths of the machine integers the plugin computes with. */
module Integers {
  /** One past the largest `u32`. */
  const U32Limit: nat := 0x1_0000_0000

  type U32 = n: int | 0 <= n < U32Limit

  /** One past the largest `u64`. */
  const U64Limit: nat := 0x1_0000_0000_0000_0000

  type U64 = n: int | 0 <= n < U64Limit
}
