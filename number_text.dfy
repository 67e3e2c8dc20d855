/**
 * The number arithmetic and number-to-text conversions the two `m:ss` formatters use
 * (src/components/music/seek-bar.tsx and src/components/music/track-item.tsx): `Math.floor`,
 * JavaScript's `%` (the remainder takes the sign of the dividend), `Number.prototype.toString`
 * on integral values and `padStart(2, '0')`.
 */
module NumberText {
  import opened Types

  /** `Math.floor` on a finite number. */
  function Floor(x: real): (r: int)
    ensures r as real <= x < r as real + 1.0
  {
    x.Floor
  }

  /** `Math.floor` keeps the order of its arguments. */
  lemma FloorMonotone(a: real, b: real)
    requires a <= b
    ensures Floor(a) <= Floor(b)
  {
    assert Floor(a) as real <= a <= b < Floor(b) as real + 1.0;
  }

  /** Rounding toward zero, as JavaScript's `%` uses for the quotient. */
  function Trunc(x: real): (r: int)
    ensures x >= 0.0 ==> r == Floor(x)
    ensures x < 0.0 ==> r == -Floor(-x)
  {
    if x >= 0.0 then Floor(x) else -Floor(-x)
  }

  /** `a % b` on finite numbers: the remainder of the truncated division, with the sign of `a`. */
  function JsRem(a: real, b: real): (r: real)
    requires b != 0.0
  {
    a - b * Trunc(a / b) as real
  }

  /** A decimal digit's character. */
  function DigitChar(d: nat): (c: char)
    requires d < 10
    ensures '0' <= c <= '9'
  {
    "0123456789"[d]
  }

  /** The value of a decimal digit character. */
  function DigitValue(c: char): (d: nat)
    requires '0' <= c <= '9'
    ensures d < 10
  {
    (c as int - '0' as int) as nat
  }

  lemma DigitRoundTrip(d: nat)
    requires d < 10
    ensures DigitValue(DigitChar(d)) == d
  {
  }

  predicate AllDigits(s: string)
  {
    forall i :: 0 <= i < |s| ==> '0' <= s[i] <= '9'
  }

  /** The number a string of decimal digits denotes (the reading of a digit string). */
  function DigitsValue(s: string): (n: nat)
    requires AllDigits(s)
    decreases |s|
  {
    if |s| == 0 then 0 else 10 * DigitsValue(s[..|s| - 1]) + DigitValue(s[|s| - 1])
  }

  /** `n.toString()` for a non-negative integer: its decimal digits, without leading zeros. */
  function NatToString(n: nat): (s: string)
    decreases n
  {
    if n < 10 then [DigitChar(n)] else NatToString(n / 10) + [DigitChar(n % 10)]
  }

  /** The decimal text of `n` is all digits, starts with a non-zero digit unless `n` is 0, and reads back as `n`. */
  lemma {:induction false} NatToStringRoundTrip(n: nat)
    ensures |NatToString(n)| >= 1 && AllDigits(NatToString(n))
    ensures n >= 10 ==> NatToString(n)[0] != '0'
    ensures DigitsValue(NatToString(n)) == n
    decreases n
  {
    var s := NatToString(n);
    if n < 10 {
      DigitRoundTrip(n);
    } else {
      NatToStringRoundTrip(n / 10);
      var p := NatToString(n / 10);
      assert s == p + [DigitChar(n % 10)];
      assert s[..|s| - 1] == p;
      DigitRoundTrip(n % 10);
      if n / 10 < 10 {
        assert p[0] == DigitChar(n / 10);
      }
    }
  }

  /** Numbers below 10 have one digit, numbers from 10 to 99 two. */
  lemma NatToStringLength(n: nat)
    ensures n < 10 ==> |NatToString(n)| == 1
    ensures 10 <= n < 100 ==> |NatToString(n)| == 2
  {
    if n >= 10 {
      assert NatToString(n) == NatToString(n / 10) + [DigitChar(n % 10)];
    }
  }

  /** `i.toString()` for an integer: a minus sign before the digits of a negative number. */
  function IntToString(i: int): (s: string)
  {
    if i < 0 then "-" + NatToString(-i) else NatToString(i)
  }

  /** `s.padStart(2, '0')`: zeros in front until the string is two characters long. */
  function PadStart2(s: string): (r: string)
    ensures |s| >= 2 ==> r == s
    ensures |s| < 2 ==> |r| == 2 && r[2 - |s|..] == s && forall i :: 0 <= i < 2 - |s| ==> r[i] == '0'
  {
    if |s| >= 2 then s else if |s| == 1 then "0" + s else "00"
  }

  /** Padding the digits of a number below 100 gives two digits that read back as the number. */
  lemma PadStart2Digits(n: nat)
    requires n < 100
    ensures |PadStart2(NatToString(n))| == 2 && AllDigits(PadStart2(NatToString(n)))
    ensures DigitsValue(PadStart2(NatToString(n))) == n
  {
    NatToStringRoundTrip(n);
    NatToStringLength(n);
    var s := NatToString(n);
    var r := PadStart2(s);
    if n < 10 {
      assert r == ['0', s[0]];
      assert r[..1] == "0";
      assert s[..0] == [];
    }
  }

  /** For a non-negative number the whole seconds split into whole minutes and a remainder below 60. */
  lemma MinutesSeconds(x: real)
    requires x >= 0.0
    ensures Floor(x / 60.0) >= 0
    ensures Floor(JsRem(x, 60.0)) == Floor(x) - 60 * Floor(x / 60.0)
    ensures 0 <= Floor(JsRem(x, 60.0)) < 60
  {
    var m := Floor(x / 60.0);
    assert 60.0 * m as real <= x < 60.0 * m as real + 60.0;
    var rem := JsRem(x, 60.0);
    assert rem == x - 60.0 * m as real;
    assert Floor(rem) + 60 * m == Floor(x) by {
      var f := Floor(rem) + 60 * m;
      assert f as real <= x < f as real + 1.0;
    }
  }

  /** `${minutes}:${seconds.toString().padStart(2, '0')}` for whole numbers. */
  function ClockOf(minutes: int, seconds: int): string
  {
    IntToString(minutes) + ":" + PadStart2(IntToString(seconds))
  }

  /** Minutes and seconds that are not negative print without a sign. */
  lemma ClockOfNatural(minutes: nat, seconds: nat)
    ensures ClockOf(minutes, seconds) == NatToString(minutes) + ":" + PadStart2(NatToString(seconds))
  {
    assert IntToString(minutes) == NatToString(minutes);
  }

  /**
   * The template both formatters share, `${Math.floor(x / 60)}:${Math.floor(x % 60)
   * .toString().padStart(2, '0')}`, on every number: infinite and NaN inputs print as
   * JavaScript prints them (`Infinity % 60` is NaN).
   */
  function ClockText(x: Num): string
  {
    match x
    case NaN => "NaN:NaN"
    case PosInfinity => "Infinity:NaN"
    case NegInfinity => "-Infinity:NaN"
    case Finite(s) => ClockOf(Floor(s / 60.0), Floor(JsRem(s, 60.0)))
  }

  /**
   * For a non-negative number the text is the whole minutes, a colon and two digits of
   * seconds below 60, and minutes and seconds together are the whole seconds of the input.
   */
  lemma ClockTextReadsBack(s: real) returns (minutes: nat, seconds: string)
    requires s >= 0.0
    ensures ClockText(Finite(s)) == NatToString(minutes) + ":" + seconds
    ensures minutes == Floor(s / 60.0)
    ensures |seconds| == 2 && AllDigits(seconds) && DigitsValue(seconds) < 60
    ensures 60 * minutes + DigitsValue(seconds) == Floor(s)
  {
    var m := Floor(s / 60.0);
    var sec := Floor(JsRem(s, 60.0));
    assert m >= 0 && 0 <= sec < 60 && 60 * m + sec == Floor(s) by {
      MinutesSeconds(s);
    }
    minutes := m;
    seconds := PadStart2(NatToString(sec));
    assert |seconds| == 2 && AllDigits(seconds) && DigitsValue(seconds) == sec by {
      PadStart2Digits(sec);
    }
    assert ClockText(Finite(s)) == ClockOf(minutes, sec);
    ClockOfNatural(minutes, sec);
  }

  /** A negative number's minutes are negative, so the text starts with a minus sign. */
  lemma ClockTextNegative(s: real)
    requires s < 0.0
    ensures ClockText(Finite(s))[0] == '-'
  {
    assert Floor(s / 60.0) < 0;
  }
}
