/**
 Unsigned 32-bit arithmetic as the ledger uses it: Rust's `u32` with its
 `checked_add` / `checked_sub` (which report overflow instead of wrapping) and
 the saturating forms the ledger builds from them with `unwrap_or`.
 */
module UInt32 {

  /** `u32::MAX` */
  const MAX: int := 0xFFFF_FFFF

  /** A Rust `u32`: every value of this type lies in [0, u32::MAX]. */
  type U32 = x: int | 0 <= x <= MAX

  /** Rust's `Option`, as returned by the checked operations. */
  datatype Option<T> = None | Some(value: T) {
    /** `Option::unwrap_or` */
    function UnwrapOr(default: T): T
    {
      match this
      case Some(v) => v
      case None => default
    }
  }

  function Min(a: int, b: int): (r: int) { if a <= b then a else b }
  function Max(a: int, b: int): (r: int) { if a <= b then b else a }

  /** `u32::checked_add`: the exact sum when it fits in 32 bits, `None` on overflow. */
  function CheckedAdd(a: U32, b: U32): (r: Option<U32>)
    ensures r.Some? <==> a + b <= MAX
    ensures r.Some? ==> r.value == a + b
  {
    if a + b <= MAX then Some(a + b) else None
  }

  /** `u32::checked_sub`: the exact difference when it is not negative, `None` on underflow. */
  function CheckedSub(a: U32, b: U32): (r: Option<U32>)
    ensures r.Some? <==> b <= a
    ensures r.Some? ==> r.value == a - b
  {
    if b <= a then Some(a - b) else None
  }

  /** `a.checked_add(b).unwrap_or(u32::MAX)`: addition that clamps at `u32::MAX`. */
  function SaturatingAdd(a: U32, b: U32): (r: U32)
    ensures r == Min(a + b, MAX)
    ensures a <= r && b <= r
    ensures r < MAX ==> r == a + b
  {
    CheckedAdd(a, b).UnwrapOr(MAX)
  }

  /** `a.checked_sub(b).unwrap_or(0)`: subtraction that clamps at zero. */
  function SaturatingSub(a: U32, b: U32): (r: U32)
    ensures r == Max(a - b, 0)
    ensures r <= a
    ensures 0 < r ==> r == a - b
  {
    CheckedSub(a, b).UnwrapOr(0)
  }

  /** Two saturating additions in a row clamp once: the order of grouping does not matter. */
  lemma SaturatingAddAssociative(a: U32, b: U32, c: U32)
    ensures SaturatingAdd(SaturatingAdd(a, b), c) == SaturatingAdd(a, SaturatingAdd(b, c))
    ensures SaturatingAdd(SaturatingAdd(a, b), c) == Min(a + b + c, MAX)
  {
  }
}
