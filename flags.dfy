/** The open flags of OS/161 (kern/include/kern/fcntl.h) and the test sys_open
    applies to them. A C `int` of flags is modelled by its 32-bit pattern. */
module OpenFlags {

  const O_RDONLY: bv32 := 0
  const O_WRONLY: bv32 := 1
  const O_RDWR: bv32 := 2
  const O_ACCMODE: bv32 := 3   // mask for O_RDONLY / O_WRONLY / O_RDWR
  const O_CREAT: bv32 := 4
  const O_EXCL: bv32 := 8
  const O_TRUNC: bv32 := 16
  const O_APPEND: bv32 := 32
  const O_NOCTTY: bv32 := 64

  /** `allflags` in sys_open: every bit a caller may set. */
  const ALL_FLAGS: bv32 := O_ACCMODE | O_CREAT | O_EXCL | O_TRUNC | O_APPEND | O_NOCTTY

  /** Bit `i` of `x` is set. */
  predicate BitSet(x: bv32, i: bv32)
    requires i < 32
  {
    (x >> i) & 1 == 1
  }

  /** sys_open's mask test `(flags & allflags) == flags`: it accepts exactly
      the patterns below 128, so any negative C int is refused. */
  function ValidOpenFlags(flags: bv32): (ok: bool)
    ensures ok <==> flags < 128
  {
    flags & ALL_FLAGS == flags
  }

  /** The mask test accepts `flags` exactly when every bit set in `flags` is
      also set in ALL_FLAGS. */
  lemma {:induction false} ValidOpenFlagsBits(flags: bv32)
    ensures ValidOpenFlags(flags) <==>
            forall i: bv32 :: i < 32 && BitSet(flags, i) ==> BitSet(ALL_FLAGS, i)
  {
    if !ValidOpenFlags(flags) {
      var i := HighBit(flags, 32);
      assert !BitSet(ALL_FLAGS, i);
    }
  }

  /** A pattern of 128 or more whose bits from `k` up are clear has a set bit
      between 7 and `k`. */
  lemma {:induction false} HighBit(x: bv32, k: bv32) returns (i: bv32)
    requires 7 < k <= 32 && x >= 128 && x >> k == 0
    ensures 7 <= i < k && BitSet(x, i)
    decreases k as int
  {
    if BitSet(x, k - 1) {
      i := k - 1;
    } else {
      i := HighBit(x, k - 1);
    }
  }
}
