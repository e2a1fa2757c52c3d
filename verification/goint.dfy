/** Go's fixed-width signed integers on a 64-bit platform: `int`, `int64`
    and `time.Duration` all have this range and wrap around silently on
    overflow. */
module GoInt {

  const MinInt64: int := -0x8000_0000_0000_0000
  const MaxInt64: int := 0x7fff_ffff_ffff_ffff
  const TwoTo64: int := 0x1_0000_0000_0000_0000

  predicate IsInt64(x: int) {
    MinInt64 <= x <= MaxInt64
  }

  type Int64 = x: int | IsInt64(x)

  /** Two's-complement truncation of an exact result to 64 bits, which is what
      Go's `*` and `+` on `int64` produce. */
  function Wrap64(x: int): (r: Int64)
    ensures (r - x) % TwoTo64 == 0
    ensures IsInt64(x) ==> r == x
  {
    var m := x % TwoTo64;
    if m <= MaxInt64 then m else m - TwoTo64
  }
}
