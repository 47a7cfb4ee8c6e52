/** Rust's fixed-width integers, the saturating and clamping operations the
    Pong engine applies to them, and `Option`. Every integer is an unbounded
    Dafny `int` restricted to the range of the Rust type it stands for, so an
    operation that would overflow in Rust must be proved not to. */
module RustPrims {

  const U16_MAX: int := 0xffff
  const U32_MAX: int := 0xffff_ffff
  const I8_MIN: int := -0x80
  const I16_MIN: int := -0x8000
  const I64_MAX: int := 0x7fff_ffff_ffff_ffff

  type u8 = x: int | 0 <= x <= 0xff
  type u16 = x: int | 0 <= x <= 0xffff
  type u32 = x: int | 0 <= x <= 0xffff_ffff
  type i8 = x: int | -0x80 <= x <= 0x7f
  type i16 = x: int | -0x8000 <= x <= 0x7fff
  type i64 = x: int | -0x8000_0000_0000_0000 <= x <= 0x7fff_ffff_ffff_ffff

  datatype Option<T> = None | Some(value: T)

  /** Distance between two points of the number line. */
  function Dist(a: int, b: int): nat
  {
    if a <= b then b - a else a - b
  }

  /** `r` is, of all points of `[lo, hi]`, the one nearest to `target`. */
  ghost predicate NearestIn(r: int, target: int, lo: int, hi: int)
  {
    lo <= r <= hi && forall v :: lo <= v <= hi ==> Dist(r, target) <= Dist(v, target)
  }

  /** At most one point of an interval is nearest to a target, so a
      `NearestIn` contract fixes its result completely. */
  lemma NearestInUnique(r1: int, r2: int, target: int, lo: int, hi: int)
    requires NearestIn(r1, target, lo, hi) && NearestIn(r2, target, lo, hi)
    ensures r1 == r2
  {
    assert Dist(r1, target) <= Dist(r2, target);
    assert Dist(r2, target) <= Dist(r1, target);
    // were they different, equally far on either side, the target would lie
    // between them, in the interval, and be nearer to itself than either
    assert lo <= target <= hi ==> Dist(r1, target) <= Dist(target, target);
  }

  /** `u16::saturating_add_signed`: of all `u16` values, the one nearest to
      the exact sum; it never moves against the sign of `d`. */
  function SaturatingAddSigned(a: u16, d: int): (r: u16)
    ensures NearestIn(r, a + d, 0, U16_MAX)
    ensures d >= 0 ==> a <= r
    ensures d <= 0 ==> r <= a
  {
    if a + d < 0 then 0 else if a + d > U16_MAX then U16_MAX else a + d
  }

  /** `u16::saturating_sub`. */
  function SaturatingSub(a: u16, b: u16): (r: u16)
    ensures NearestIn(r, a - b, 0, U16_MAX)
  {
    if a < b then 0 else a - b
  }

  /** `clamp(v, lo, hi)`, which Rust refuses (panics) when `lo > hi`: the
      point of `[lo, hi]` nearest to `v`. */
  function Clamp(v: int, lo: int, hi: int): (r: int)
    requires lo <= hi
    ensures NearestIn(r, v, lo, hi)
  {
    if v < lo then lo else if v > hi then hi else v
  }

  function Min(a: int, b: int): int
  {
    if a <= b then a else b
  }

  function Max(a: int, b: int): int
  {
    if a >= b then a else b
  }
}
