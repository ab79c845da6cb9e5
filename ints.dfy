/** Fixed-width machine integers of the Rust crate, as subsets of `int`, and the
    `as` casts between them that the crate performs.  Widths follow the RoboRIO,
    a 32-bit ARM target, so `usize` is 32 bits wide. */
module Ints {

  type u8 = x: int | 0 <= x < 0x100
  type i16 = x: int | -0x8000 <= x < 0x8000
  type u16 = x: int | 0 <= x < 0x1_0000
  type i32 = x: int | -0x8000_0000 <= x < 0x8000_0000
  type u32 = x: int | 0 <= x < 0x1_0000_0000
  type i64 = x: int | -0x8000_0000_0000_0000 <= x < 0x8000_0000_0000_0000
  type u64 = x: int | 0 <= x < 0x1_0000_0000_0000_0000
  type usize = u32

  /** A `float` carried as its IEEE-754 bit pattern: the crate only copies floats. */
  type F32 = u32
  /** A `double` carried as its IEEE-754 bit pattern. */
  type F64 = u64

  /** `x as u32` for an `i32`: the same 32 bits read as unsigned. */
  function I32AsU32(x: i32): (r: u32)
    ensures (r - x) % 0x1_0000_0000 == 0
  {
    if x >= 0 then x else x + 0x1_0000_0000
  }

  /** `x as i32` for a `u32`: the same 32 bits read as two's complement. */
  function U32AsI32(x: u32): (r: i32)
    ensures (r - x) % 0x1_0000_0000 == 0
  {
    if x < 0x8000_0000 then x else x - 0x1_0000_0000
  }

  /** Reinterpreting the bits twice gives back the original value, in both orders. */
  lemma CastRoundTrip(x: i32, y: u32)
    ensures U32AsI32(I32AsU32(x)) == x
    ensures I32AsU32(U32AsI32(y)) == y
    ensures x >= 0 ==> I32AsU32(x) == x
  {
  }

  /** `x as i16` for a `usize`: keeps the low 16 bits, read as two's complement. */
  function UsizeAsI16(x: usize): (r: i16)
    ensures (r - x) % 0x1_0000 == 0
    ensures x < 0x8000 ==> r == x
  {
    var low := x % 0x1_0000;
    if low < 0x8000 then low else low - 0x1_0000
  }

  /** `x as i32` for a `u8`: widening keeps the value. */
  function U8AsI32(x: u8): (r: i32)
    ensures r == x
  {
    x
  }

  /** `HAL_Bool` is an `i32`; the crate reads it as `n != 0`. */
  predicate FromHalBool(n: i32) {
    n != 0
  }

  /** `b as HAL_Bool`: 1 for true, 0 for false. */
  function ToHalBool(b: bool): (n: i32)
    ensures FromHalBool(n) == b
  {
    if b then 1 else 0
  }

  function Abs(x: int): (r: nat)
    ensures r == x || r == -x
  {
    if x < 0 then -x else x
  }

  /** Rust's `/` on integers: the quotient rounded toward zero.  Dafny's own
      `/` is Euclidean and differs on negative dividends. */
  function TruncDiv(a: int, b: int): int
    requires b != 0
  {
    var m := Abs(a) / Abs(b);
    if (a < 0) == (b < 0) then m else -m
  }

  /** The remainder left by `TruncDiv` has the dividend's sign and is smaller
      than the divisor in magnitude. */
  lemma TruncDivRemainder(a: int, b: int)
    requires b != 0
    ensures var r := a - TruncDiv(a, b) * b;
      Abs(r) < Abs(b) && (r == 0 || ((r < 0) <==> (a < 0)))
  {
    var m := Abs(a) / Abs(b);
    var rem := Abs(a) % Abs(b);
    assert Abs(a) == m * Abs(b) + rem;
    var q := TruncDiv(a, b);
    if (a < 0) == (b < 0) {
      assert q == m;
      if a < 0 {
        assert a == -(Abs(a) as int) && b == -(Abs(b) as int);
        assert a - q * b == -rem;
      } else {
        assert a == Abs(a) && b == Abs(b);
        assert a - q * b == rem;
      }
    } else {
      assert q == -m;
      if a < 0 {
        assert a == -(Abs(a) as int) && b == Abs(b);
        assert a - q * b == -rem;
      } else {
        assert a == Abs(a) && b == -(Abs(b) as int);
        assert a - q * b == rem;
      }
    }
  }

  /** Where truncation and Dafny's Euclidean division part ways. */
  lemma TruncDivDiffersFromEuclidean()
    ensures TruncDiv(-1, 2) == 0 && -1 / 2 == -1
  {
  }
}
