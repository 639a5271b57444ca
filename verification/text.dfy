/**
 * Kotlin's `Int.toString()` and `String.padStart`, with the decimal parser
 * that inverts them, and the `m:ss` clock text both view states derive from
 * their remaining seconds.
 */
module Text {
  import opened Wrappers
  import opened Kotlin

  predicate IsDigit(c: char) { '0' <= c <= '9' }

  predicate AllDigits(s: string) {
    forall i :: 0 <= i < |s| ==> IsDigit(s[i])
  }

  function DigitValue(c: char): int { c as int - '0' as int }

  function DigitChar(d: int): (c: char)
    requires 0 <= d < 10
    ensures IsDigit(c) && DigitValue(c) == d
  {
    (d + '0' as int) as char
  }

  /** The value of a string of decimal digits, most significant first. */
  function DigitsValue(s: string): nat
    requires AllDigits(s)
  {
    if s == [] then 0 else DigitsValue(s[..|s| - 1]) * 10 + DigitValue(s[|s| - 1])
  }

  /** Decimal digits of a natural number, without leading zeros. */
  function NatToString(n: nat): (s: string)
    ensures |s| >= 1 && AllDigits(s)
    ensures n < 10 <==> |s| == 1
  {
    if n < 10 then [DigitChar(n)] else NatToString(n / 10) + [DigitChar(n % 10)]
  }

  lemma {:induction false} NatToStringValue(n: nat)
    ensures DigitsValue(NatToString(n)) == n
  {
    if n >= 10 {
      var s := NatToString(n);
      var p := NatToString(n / 10);
      assert s == p + [DigitChar(n % 10)];
      assert s[..|s| - 1] == p;
      NatToStringValue(n / 10);
    }
  }

  /** Reads an optional minus sign followed by at least one decimal digit. */
  function ParseInt(s: string): Option<int> {
    if |s| >= 2 && s[0] == '-' && AllDigits(s[1..]) then Some(0 - DigitsValue(s[1..]) as int)
    else if |s| >= 1 && AllDigits(s) then Some(DigitsValue(s))
    else None
  }

  /** Kotlin's `Int.toString()`: a minus sign for negatives, then the digits. */
  function IntToString(x: int): (s: string)
    ensures |s| >= 1
    ensures x < 0 <==> s[0] == '-'
    ensures forall i :: 0 < i < |s| ==> IsDigit(s[i])
    ensures ParseInt(s) == Some(x)
  {
    if x < 0 then
      var d := NatToString(-x);
      NatToStringValue(-x);
      assert ("-" + d)[1..] == d;
      "-" + d
    else
      NatToStringValue(x);
      NatToString(x)
  }

  /** Different integers have different texts. */
  lemma IntToStringInjective(a: int, b: int)
    requires IntToString(a) == IntToString(b)
    ensures a == b
  {
    assert ParseInt(IntToString(a)) == Some(a);
  }

  function Repeat(c: char, n: nat): (s: string)
    ensures |s| == n && forall i :: 0 <= i < n ==> s[i] == c
  {
    if n == 0 then [] else [c] + Repeat(c, n - 1)
  }

  /** Kotlin's `s.padStart(length, c)`. */
  function PadStart(s: string, length: nat, c: char): (r: string)
    ensures |r| == if |s| >= length then |s| else length
    ensures r[|r| - |s|..] == s
    ensures forall i :: 0 <= i < |r| - |s| ==> r[i] == c
  {
    if |s| >= length then s else Repeat(c, length - |s|) + s
  }

  /** `remainingMinutes`: whole minutes of a second count. */
  function Minutes(seconds: int): (m: int)
    ensures seconds >= 0 ==> m >= 0 && 60 * m <= seconds < 60 * m + 60
    ensures seconds < 0 ==> m <= 0 && 60 * m - 60 < seconds <= 60 * m
  {
    Div(seconds, 60)
  }

  /** `remainingSecondsPart`: the seconds within the minute, padded with '0' to two characters. */
  function SecondsPart(seconds: int): (part: string)
    ensures |part| >= 2
    ensures part[0] == '-' <==> Rem(seconds, 60) < 0
  {
    var s := IntToString(Rem(seconds, 60));
    var part := PadStart(s, 2, '0');
    assert |part| > |s| ==> part[0] == '0';
    assert |part| == |s| ==> part == s;
    part
  }

  /** For a non-negative count the clock text is two digits and reads back as the count. */
  lemma ClockRoundTrip(seconds: int)
    requires seconds >= 0
    ensures var part := SecondsPart(seconds);
      |part| == 2 && AllDigits(part) && Minutes(seconds) * 60 + DigitsValue(part) == seconds
  {
    var r := Rem(seconds, 60);
    var digits := NatToString(r);
    NatToStringValue(r);
    var part := SecondsPart(seconds);
    if r < 10 {
      assert part == ['0'] + digits;
      assert part[..1] == ['0'];
      assert DigitsValue(part) == DigitsValue(['0']) * 10 + DigitValue(digits[0]);
      assert DigitsValue(['0']) == DigitsValue([]) * 10 + 0;
      assert digits[..0] == [];
    } else {
      assert part == digits;
    }
  }
}
