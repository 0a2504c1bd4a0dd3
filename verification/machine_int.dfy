/** Fixed-width integer conversions of the C++ source, written out on unbounded
    integers: Dafny's `%` is Euclidean, which is exactly two's-complement
    reduction modulo a power of two. */
module MachineInt {

  const TwoTo16: int := 0x1_0000
  const TwoTo31: int := 0x8000_0000
  const TwoTo32: int := 0x1_0000_0000
  const TwoTo63: int := 0x8000_0000_0000_0000
  const TwoTo64: int := 0x1_0000_0000_0000_0000

  predicate IsUint64(x: int) { 0 <= x < TwoTo64 }

  /** Conversion of any integer (a `long` from strtol, say) to `uint64_t`. */
  function ToUint64(x: int): (r: nat)
    ensures IsUint64(r)
    ensures IsUint64(x) ==> r == x
    ensures -TwoTo64 <= x < 0 ==> r == x + TwoTo64
  {
    x % TwoTo64
  }

  /** Conversion to `uint16_t`. */
  function ToUint16(x: int): (r: nat)
    ensures r < TwoTo16
    ensures (r - x) % TwoTo16 == 0
    ensures 0 <= x < TwoTo16 ==> r == x
    ensures -TwoTo16 <= x < 0 ==> r == x + TwoTo16
  {
    x % TwoTo16
  }

  /** Conversion of a `uint64_t` to `int` (32-bit, two's complement). */
  function ToInt32(x: nat): (r: int)
    ensures -TwoTo31 <= r < TwoTo31
    ensures (r - x) % TwoTo32 == 0
    ensures x < TwoTo31 ==> r == x
  {
    var low := x % TwoTo32;
    if low < TwoTo31 then low else low - TwoTo32
  }

  /** Conversion of a `uint64_t` to `int64_t` (two's complement). */
  function ToInt64(x: nat): (r: int)
    requires IsUint64(x)
    ensures -TwoTo63 <= r < TwoTo63
    ensures x < TwoTo63 ==> r == x
    ensures x >= TwoTo63 ==> r < 0 && r == x - TwoTo64
  {
    if x < TwoTo63 then x else x - TwoTo64
  }

  /** Post-increment of an unsigned 64-bit counter: wraps to 0 after 2^64 - 1. */
  function Inc64(x: nat): (r: nat)
    requires IsUint64(x)
    ensures IsUint64(r)
    ensures r != x
    ensures x + 1 < TwoTo64 ==> r == x + 1
    ensures x + 1 == TwoTo64 ==> r == 0
  {
    if x + 1 == TwoTo64 then 0 else x + 1
  }
}
