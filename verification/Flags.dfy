/** The bit macros of kmodule/group_dev.h on the shared `char flags`. */
module Flags {

  type Char = bv8
  type Bit = bv3
  const BARRIER_BIT: Bit := 0
  const FLUSHING_BIT: Bit := 1

  function SetBit(flags: Char, n: Bit): Char { flags | (1 << n) }
  function ClearBit(flags: Char, n: Bit): Char { flags & !(1 << n) }
  predicate CheckBit(flags: Char, n: Bit) { (flags >> n) & 1 == 1 }

  /** Setting or clearing a bit shows in that bit and in no other. */
  lemma BitsAreIndependent(flags: Char, n: Bit, m: Bit)
    ensures CheckBit(SetBit(flags, n), m) <==> n == m || CheckBit(flags, m)
    ensures CheckBit(ClearBit(flags, n), m) <==> n != m && CheckBit(flags, m)
  {
  }
}
