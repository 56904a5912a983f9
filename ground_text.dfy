/*
 * Number-to-text helpers of the ground dashboards: Python's `clamp`, the
 * fixed-point float format (`{x:0.3f}`, `{x:05.2f}`, `{m:02d}`) on exact
 * reals with round-half-even, and `fmt_time`, the mm:ss.ss clock of the
 * flight timers, together with a reader for that clock text.
 */
module GroundText {
  import opened Common
  import GroundLine

  // ---------------------------------------------------------------------
  // clamp(v, vmin, vmax) = max(vmin, min(vmax, v)) with Python's min/max,
  // which keep their first argument unless the second compares past it.

  function Clamp(v: Flt, lo: real, hi: real): (r: real)
  {
    var m := if v.Num? && v.v < hi then v.v else hi;
    if m > lo then m else lo
  }

  /** clamp() lands in [lo, hi], leaves values already there alone, and
      sends NaN to the upper bound. */
  lemma ClampMeaning(v: Flt, lo: real, hi: real)
    requires lo <= hi
    ensures lo <= Clamp(v, lo, hi) <= hi
    ensures v.Num? && lo <= v.v <= hi ==> Clamp(v, lo, hi) == v.v
    ensures v.Num? && v.v < lo ==> Clamp(v, lo, hi) == lo
    ensures v.Num? && v.v > hi ==> Clamp(v, lo, hi) == hi
    ensures v.NaN? ==> Clamp(v, lo, hi) == hi
  {
  }

  /** clamp() is monotone in the value. */
  lemma ClampMonotone(a: real, b: real, lo: real, hi: real)
    requires a <= b
    ensures Clamp(Num(a), lo, hi) <= Clamp(Num(b), lo, hi)
  {
  }

  // ---------------------------------------------------------------------
  // Decimal digits.

  predicate IsDigit(c: char) { '0' <= c <= '9' }

  predicate AllDigits(s: string) { forall i :: 0 <= i < |s| ==> IsDigit(s[i]) }

  function DigitChar(d: nat): char
    requires d < 10
  {
    ('0' as int + d) as char
  }

  function DigitValue(c: char): int { c as int - '0' as int }

  /** The shortest decimal text of `n` ("0" for zero). */
  function Digits(n: nat): (r: string)
    ensures |r| >= 1 && AllDigits(r)
  {
    if n < 10 then [DigitChar(n)] else Digits(n / 10) + [DigitChar(n % 10)]
  }

  /** The number a digit string denotes. */
  function ValueOf(s: string): int
  {
    if s == [] then 0 else ValueOf(s[..|s| - 1]) * 10 + DigitValue(s[|s| - 1])
  }

  function Zeros(k: nat): (r: string)
    ensures |r| == k && AllDigits(r)
    ensures forall i :: 0 <= i < k ==> r[i] == '0'
  {
    if k == 0 then [] else Zeros(k - 1) + ['0']
  }

  /** Left zero padding to at least `w` characters (the `0w` format flag). */
  function Pad(s: string, w: nat): (r: string)
    ensures |r| == if |s| < w then w else |s|
    ensures AllDigits(s) ==> AllDigits(r)
  {
    if |s| < w then Zeros(w - |s|) + s else s
  }

  lemma {:induction false} DigitsValue(n: nat)
    ensures ValueOf(Digits(n)) == n
  {
    if n >= 10 {
      DigitsValue(n / 10);
      var d := Digits(n);
      assert d[..|d| - 1] == Digits(n / 10);
    }
  }

  lemma {:induction false} LeadingZeros(k: nat, s: string)
    ensures ValueOf(Zeros(k) + s) == ValueOf(s)
    decreases |s|, k
  {
    if s == [] {
      if k > 0 {
        assert Zeros(k) + s == Zeros(k - 1) + ['0'];
        assert (Zeros(k - 1) + ['0'])[..k - 1] == Zeros(k - 1);
        LeadingZeros(k - 1, []);
        assert Zeros(k - 1) + [] == Zeros(k - 1);
      }
    } else {
      var t := Zeros(k) + s;
      assert t[..|t| - 1] == Zeros(k) + s[..|s| - 1];
      LeadingZeros(k, s[..|s| - 1]);
    }
  }

  /** Reading a padded decimal text back gives the number. */
  lemma PaddedValue(n: nat, w: nat)
    ensures ValueOf(Pad(Digits(n), w)) == n
  {
    DigitsValue(n);
    if |Digits(n)| < w {
      LeadingZeros(w - |Digits(n)|, Digits(n));
    }
  }

  // ---------------------------------------------------------------------
  // Fixed-point formatting.

  function Pow10(k: nat): (r: nat)
    ensures r >= 1
  {
    if k == 0 then 1 else 10 * Pow10(k - 1)
  }

  /** Nearest integer, ties to even (how Python rounds the printed digits). */
  function RoundHalfEven(x: real): (n: int)
    ensures x - 0.5 <= n as real <= x + 0.5
    ensures (n as real - x == 0.5 || x - n as real == 0.5) ==> n % 2 == 0
  {
    var f := x.Floor;
    var d := x - f as real;
    if d < 0.5 then f else if d > 0.5 then f + 1 else if f % 2 == 0 then f else f + 1
  }

  /** `{x:0<w>.<p>f}`: sign, integer part zero-padded to `intWidth`, '.',
      exactly `places` rounded decimals. */
  function Fixed(x: real, places: nat, intWidth: nat): string
    requires places >= 1
  {
    var c := RoundHalfEven(Abs(x) * Pow10(places) as real);
    var n: nat := if c < 0 then 0 else c;
    var d := Pow10(places);
    NatDivMod(n, d);
    (if x < 0.0 then "-" else "") + Pad(Digits(n / d), intWidth) + "." + Pad(Digits(n % d), places)
  }

  lemma NatDivMod(n: nat, d: nat)
    requires d > 0
    ensures n / d >= 0 && 0 <= n % d < d
  {
  }

  // ---------------------------------------------------------------------
  // fmt_time.

  const PLACEHOLDER: string := "--:--.--"

  /** `mm:ss.cc` for `m` minutes and `c` hundredths of a second. */
  function ClockText(m: nat, c: nat): string
  {
    Pad(Digits(m), 2) + ":" + Pad(Digits(c / 100), 2) + "." + Pad(Digits(c % 100), 2)
  }

  /** `max(0.0, s)` for a non-NaN s. */
  function NonNegative(x: real): (r: real)
  {
    if x > 0.0 then x else 0.0
  }

  /** fmt_time as written: the whole minutes of max(0, s), then the rest of
      the seconds formatted with two rounded decimals. */
  function FmtTime(s: Option<Flt>): (r: string)
  {
    if s.None? || s.value.NaN? then PLACEHOLDER
    else
      WholeMinutes(s.value.v);
      MinSec(Minutes(s.value.v), Seconds(s.value.v))
  }

  /** `{m:02d}:{rem:05.2f}`. */
  function MinSec(m: nat, rem: real): string
  {
    Pad(Digits(m), 2) + ":" + Fixed(rem, 2, 2)
  }

  /** The whole minutes of max(0, x). */
  function Minutes(x: real): int
  {
    (NonNegative(x) / 60.0).Floor
  }

  /** The seconds of max(0, x) after its whole minutes. */
  function Seconds(x: real): real
  {
    NonNegative(x) - Minutes(x) as real * 60.0
  }

  /** Those seconds in rounded hundredths, as fmt_time prints them. */
  function Hundredths(x: real): int
  {
    RoundHalfEven(Seconds(x) * 100.0)
  }

  /** The mm:ss.ss clock with the rounding carried into the minutes: the
      whole value is rounded to hundredths first. */
  function FmtClock(s: Option<Flt>): (r: string)
  {
    if s.None? || s.value.NaN? then PLACEHOLDER
    else ClockText(TotalHundredths(s.value.v) / 6000, TotalHundredths(s.value.v) % 6000)
  }

  /** max(0, x) in rounded hundredths. */
  function TotalHundredths(x: real): nat
  {
    var c := RoundHalfEven(NonNegative(x) * 100.0);
    if c < 0 then 0 else c
  }

  /** Reads `m:s.c` back into its three numbers (None when the text does not
      have that shape). */
  function ReadClock(t: string): Option<(int, int, int)>
  {
    if ':' !in t then None
    else
      var i := GroundLine.IndexOf(t, ':');
      var rest := t[i + 1..];
      if '.' !in rest then None
      else
        var j := GroundLine.IndexOf(rest, '.');
        if AllDigits(t[..i]) && AllDigits(rest[..j]) && AllDigits(rest[j + 1..]) then
          Some((ValueOf(t[..i]), ValueOf(rest[..j]), ValueOf(rest[j + 1..])))
        else None
  }

  /** The clock text reads back to its minutes, seconds and hundredths. */
  lemma ReadClockText(m: nat, c: nat)
    ensures ReadClock(ClockText(m, c)) == Some((m, c / 100, c % 100))
  {
    var a := Pad(Digits(m), 2);
    var b := Pad(Digits(c / 100), 2);
    var d := Pad(Digits(c % 100), 2);
    var rest := b + ['.'] + d;
    assert ClockText(m, c) == a + [':'] + rest;
    assert ':' !in a;
    assert '.' !in b;
    GroundLine.FirstSep(a, ':', rest);
    GroundLine.FirstSep(b, '.', d);
    PaddedValue(m, 2);
    PaddedValue(c / 100, 2);
    PaddedValue(c % 100, 2);
  }

  /** fmt_time(s) with s as written is the clock text of whole minutes and
      the rounded hundredths of the remaining seconds. */
  lemma FmtTimeIsClock(x: real)
    ensures Minutes(x) >= 0 && Hundredths(x) >= 0
    ensures FmtTime(Some(Num(x))) == ClockText(Minutes(x), Hundredths(x))
  {
    WholeMinutes(x);
    MinSecIsClock(Minutes(x), Seconds(x));
  }

  /** With a non-negative rest, the fields are the clock text of the rounded hundredths. */
  lemma MinSecIsClock(m: nat, rem: real)
    requires rem >= 0.0
    ensures RoundHalfEven(rem * 100.0) >= 0
    ensures MinSec(m, rem) == ClockText(m, RoundHalfEven(rem * 100.0))
  {
    FixedHundredths(rem);
    var c := RoundHalfEven(rem * 100.0);
    var a, b, d := Pad(Digits(m), 2), Pad(Digits(c / 100), 2), Pad(Digits(c % 100), 2);
    assert MinSec(m, rem) == a + ":" + (b + "." + d);
    assert a + ":" + (b + "." + d) == a + ":" + b + "." + d;
  }

  /** The whole minutes of a non-negative time, and the seconds left over, are non-negative. */
  lemma WholeMinutes(x: real)
    ensures Minutes(x) >= 0 && Seconds(x) >= 0.0
  {
    var q := NonNegative(x) / 60.0;
    assert q * 60.0 == NonNegative(x);
  }

  /** Two decimals of a non-negative number: the rounded hundredths split at the point. */
  lemma FixedHundredths(x: real)
    requires x >= 0.0
    ensures var c := RoundHalfEven(x * 100.0);
            c >= 0 && Fixed(x, 2, 2) == Pad(Digits(c / 100), 2) + "." + Pad(Digits(c % 100), 2)
  {
    assert Abs(x) == x;
    assert Pow10(2) == 100;
  }

  /** Unknown times, and only they, show the placeholder. */
  lemma FmtTimePlaceholder(s: Option<Flt>)
    ensures FmtTime(s) == PLACEHOLDER <==> s.None? || s.value.NaN?
  {
    if s.Some? && s.value.Num? {
      FmtTimeIsClock(s.value.v);
      var t := FmtTime(s);
      assert IsDigit(t[0]);
      assert PLACEHOLDER[0] == '-';
    }
  }

  /** Minutes and hundredths read back as seconds, to within half a
      hundredth of `v` when `c` is `v - 60 m` in hundredths, rounded. */
  lemma ClockNear(m: int, c: nat, v: real)
    requires (v - m as real * 60.0) * 100.0 - 0.5 <= c as real <= (v - m as real * 60.0) * 100.0 + 0.5
    ensures Abs(m as real * 60.0 + (c / 100) as real + (c % 100) as real / 100.0 - v) <= 0.005
  {
    var q := c / 100;
    var r := c % 100;
    assert c == q * 100 + r;
    assert q as real * 100.0 + r as real == c as real;
    assert q as real + r as real / 100.0 == c as real / 100.0;
  }

  /** fmt_time's text reads back to the whole minutes and the rounded
      hundredths of the remaining seconds. */
  lemma FmtTimeReads(x: real)
    ensures ReadClock(FmtTime(Some(Num(x)))) == Some((Minutes(x), Hundredths(x) / 100, Hundredths(x) % 100))
  {
    FmtTimeIsClock(x);
    ReadClockText(Minutes(x), Hundredths(x));
  }

  /** What fmt_time shows reads back to within half a hundredth of a second
      of max(0, s). */
  lemma FmtTimeAccurate(x: real)
    ensures ReadClock(FmtTime(Some(Num(x)))).Some?
    ensures var f := ReadClock(FmtTime(Some(Num(x)))).value;
            Abs(f.0 as real * 60.0 + f.1 as real + f.2 as real / 100.0 - NonNegative(x)) <= 0.005
  {
    FmtTimeReads(x);
    FmtTimeIsClock(x);
    ClockNear(Minutes(x), Hundredths(x), NonNegative(x));
  }

  /** As written, the seconds field can read 60: 59.999 s shows "00:60.00",
      because the rounding of the seconds is not carried into the minutes. */
  lemma FmtTimeShowsSixty(x: real)
    requires x == 59.999
    ensures ReadClock(FmtTime(Some(Num(x)))) == Some((0, 60, 0))
  {
    FmtTimeReads(x);
    SixtyFields(x);
    var h := Hundredths(x);
    assert h / 100 == 60 && h % 100 == 0;
  }

  /** 59.999 s is no whole minute and 6000 rounded hundredths. */
  lemma SixtyFields(x: real)
    requires x == 59.999
    ensures Minutes(x) == 0 && Hundredths(x) == 6000
  {
    assert Minutes(x) == 0 by {
      assert NonNegative(x) / 60.0 < 1.0;
    }
    assert Seconds(x) == 59.999;
    RoundUp(Seconds(x) * 100.0);
  }

  lemma RoundUp(y: real)
    requires y == 5999.9
    ensures RoundHalfEven(y) == 6000
  {
    assert y.Floor == 5999;
  }

  /** The corrected clock never shows 60 or more in the seconds field and
      reads back to within half a hundredth of a second of max(0, s). */
  lemma FmtClockSound(x: real)
    ensures ReadClock(FmtClock(Some(Num(x)))).Some?
    ensures var f := ReadClock(FmtClock(Some(Num(x)))).value;
            0 <= f.1 < 60 && 0 <= f.2 < 100
            && Abs(f.0 as real * 60.0 + f.1 as real + f.2 as real / 100.0 - NonNegative(x)) <= 0.005
  {
    var n := TotalHundredths(x);
    ReadClockText(n / 6000, n % 6000);
    CarriedNear(n, NonNegative(x));
  }

  /** Hundredths `n` within half a unit of `100 v`, split into minutes and
      the rest of a minute, read back to within half a hundredth of `v`. */
  lemma CarriedNear(n: nat, v: real)
    requires v * 100.0 - 0.5 <= n as real <= v * 100.0 + 0.5
    ensures var m, k := n / 6000, n % 6000;
            k / 100 < 60 && Abs(m as real * 60.0 + (k / 100) as real + (k % 100) as real / 100.0 - v) <= 0.005
  {
    var m := n / 6000;
    var k := n % 6000;
    assert n == m * 6000 + k;
    assert (v - m as real * 60.0) * 100.0 == v * 100.0 - (m * 6000) as real;
    ClockNear(m, k, v);
  }
}
