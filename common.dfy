/**
 * Shared vocabulary of the flight-computer model: fixed-width unsigned
 * integers with the C wrap-around made explicit, a single-precision float
 * seen as "a real number or NaN", and the C maths library as a record of
 * uninterpreted functions.
 */
module Common {

  const U8_MOD: int := 0x100
  const U16_MOD: int := 0x1_0000
  const U32_MOD: int := 0x1_0000_0000

  type u8 = x: int | 0 <= x < U8_MOD
  type u16 = x: int | 0 <= x < U16_MOD
  type u32 = x: int | 0 <= x < U32_MOD
  type i16 = x: int | -0x8000 <= x < 0x8000

  /** `a + b` on uint32_t: the sum modulo 2^32. */
  function Add32(a: u32, b: u32): (r: u32)
    ensures r == a + b || r == a + b - U32_MOD
    ensures r <= a + b
  {
    (a + b) % U32_MOD
  }

  /** `a - b` on uint32_t: the difference modulo 2^32 (never negative). */
  function Sub32(a: u32, b: u32): (r: u32)
    ensures b <= a ==> r == a - b
    ensures a < b ==> r == a - b + U32_MOD
  {
    (a - b) % U32_MOD
  }

  /** Splitting off the low byte of `lo + 256 * hi`. */
  lemma Digit(lo: int, hi: int)
    requires 0 <= lo < 0x100 && 0 <= hi
    ensures (lo + 0x100 * hi) % 0x100 == lo && (lo + 0x100 * hi) / 0x100 == hi
  {
  }

  /** Dividing by 256 twice is dividing by 65536; thrice, by 2^24. */
  lemma ShiftTwice(x: nat)
    ensures x / 0x1_0000 == x / 0x100 / 0x100
    ensures x / 0x100_0000 == x / 0x1_0000 / 0x100
  {
    var q1 := x / 0x100;
    var q2 := q1 / 0x100;
    var q3 := q2 / 0x100;
    assert x == x % 0x100 + 0x100 * (q1 % 0x100) + 0x1_0000 * q2;
    Digit2(x % 0x100 + 0x100 * (q1 % 0x100), q2);
    assert x == x % 0x100 + 0x100 * (q1 % 0x100) + 0x1_0000 * (q2 % 0x100) + 0x100_0000 * q3;
    Digit3(x % 0x100 + 0x100 * (q1 % 0x100) + 0x1_0000 * (q2 % 0x100), q3);
  }

  lemma Digit2(lo: int, hi: int)
    requires 0 <= lo < 0x1_0000 && 0 <= hi
    ensures (lo + 0x1_0000 * hi) / 0x1_0000 == hi
  {
  }

  lemma Digit3(lo: int, hi: int)
    requires 0 <= lo < 0x100_0000 && 0 <= hi
    ensures (lo + 0x100_0000 * hi) / 0x100_0000 == hi
  {
  }

  /** Truncation of a C `int` to uint16_t. */
  function ToU16(x: int): (r: u16)
    ensures 0 <= x < U16_MOD ==> r == x
  {
    x % U16_MOD
  }

  /**
   * A C `float`: either NaN or a (finite) value. Values are exact reals;
   * rounding and infinities are not part of the model.
   */
  datatype Flt = NaN | Num(v: real)

  /** IEEE comparisons: every ordered comparison with NaN is false. */
  predicate Lt(x: Flt, c: real) { x.Num? && x.v < c }
  predicate Le(x: Flt, c: real) { x.Num? && x.v <= c }
  predicate Gt(x: Flt, c: real) { x.Num? && x.v > c }
  predicate Ge(x: Flt, c: real) { x.Num? && x.v >= c }

  function Abs(x: real): (r: real)
    ensures r >= 0.0 && (r == x || r == -x)
  {
    if x < 0.0 then -x else x
  }

  function FAbs(x: Flt): (r: Flt)
    ensures r.NaN? <==> x.NaN?
    ensures r.Num? ==> r.v >= 0.0
  {
    if x.NaN? then NaN else Num(Abs(x.v))
  }

  function Min(a: real, b: real): real { if a < b then a else b }
  function Max(a: real, b: real): real { if a < b then b else a }

  /**
   * The libm entry points the firmware calls, and the bit-cast of a 32-bit
   * word to a float. Nothing is assumed about them: the model holds for every
   * choice of these functions.
   */
  datatype Libm = Libm(
    sqrt: real -> real,
    cos: real -> real,
    acos: real -> real,
    atan2: (real, real) -> real,
    asin: real -> real,
    bitsToFloat: u32 -> Flt)

  datatype Option<T> = None | Some(value: T)

  /** `fminf(a, b)`: the smaller value; a NaN argument is ignored unless both are NaN. */
  function FMinf(a: Flt, b: Flt): (r: Flt)
    ensures r.NaN? <==> a.NaN? && b.NaN?
    ensures r.Num? ==> (r == a || r == b)
    ensures a.Num? && b.Num? ==> r.v <= a.v && r.v <= b.v
  {
    if a.NaN? then b else if b.NaN? then a else Num(Min(a.v, b.v))
  }

  /** `fmaxf(c, x)` with a constant first argument: never NaN. */
  function FMaxfC(c: real, x: Flt): (r: real)
    ensures r >= c
    ensures x.Num? ==> r >= x.v && (r == c || r == x.v)
    ensures x.NaN? ==> r == c
  {
    if x.NaN? then c else Max(c, x.v)
  }

  /** Float arithmetic: NaN in, NaN out. */
  function FAdd(a: Flt, b: Flt): Flt { if a.Num? && b.Num? then Num(a.v + b.v) else NaN }
  function FSub(a: Flt, b: Flt): Flt { if a.Num? && b.Num? then Num(a.v - b.v) else NaN }
  function FMul(a: Flt, b: Flt): Flt { if a.Num? && b.Num? then Num(a.v * b.v) else NaN }
  function FScale(k: real, a: Flt): Flt { if a.Num? then Num(k * a.v) else NaN }

  /** Division; a zero divisor gives NaN here (infinities are not part of the model). */
  function FDiv(a: Flt, b: Flt): (r: Flt)
    ensures r.Num? <==> a.Num? && b.Num? && b.v != 0.0
    ensures r.Num? ==> r.v * b.v == a.v
  {
    if a.Num? && b.Num? && b.v != 0.0 then Num(a.v / b.v) else NaN
  }

  /** `atan2f`: NaN if either argument is. */
  function FAtan2(m: Libm, y: Flt, x: Flt): Flt
  {
    if y.Num? && x.Num? then Num(m.atan2(y.v, x.v)) else NaN
  }

  /** `sqrtf`: NaN for a negative argument. */
  function FSqrt(m: Libm, x: Flt): (r: Flt)
    ensures r.Num? <==> x.Num? && x.v >= 0.0
  {
    if x.Num? && x.v >= 0.0 then Num(m.sqrt(x.v)) else NaN
  }
}
