/** Go's `int64`, which is also `int` on the platforms in question. */
module Integers {
  const MAX64: int := 0x7fff_ffff_ffff_ffff
  const MIN64: int := -0x8000_0000_0000_0000

  predicate Int64(x: int) { MIN64 <= x <= MAX64 }
}
