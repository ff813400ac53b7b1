/** Python's rendering of integers, as used by the format strings of the plots:
    `str(n)` / `'{}'`, `'{:02d}'` (zero padded to width two) and `'{:3d}'`
    (space padded to width three). */
module PyFormat {

  predicate IsDigit(c: char) {
    '0' <= c <= '9'
  }

  predicate AllDigits(s: string) {
    forall i :: 0 <= i < |s| ==> IsDigit(s[i])
  }

  function DigitChar(d: nat): (c: char)
    requires d < 10
    ensures IsDigit(c) && (c as int) - ('0' as int) == d
  {
    (('0' as int) + d) as char
  }

  function DigitValue(c: char): (d: nat)
    requires IsDigit(c)
    ensures d < 10 && DigitChar(d) == c
  {
    (c as int) - ('0' as int)
  }

  /** The decimal digits of `n`, most significant first, without leading zeros. */
  function Decimal(n: nat): (s: string)
    ensures |s| >= 1 && AllDigits(s)
    ensures |s| == 1 <==> n < 10
    ensures n >= 10 ==> s[0] != '0'
    decreases n
  {
    if n < 10 then [DigitChar(n)] else Decimal(n / 10) + [DigitChar(n % 10)]
  }

  /** The number a string of decimal digits denotes (leading zeros allowed). */
  function DecimalValue(s: string): nat
    requires AllDigits(s)
  {
    if |s| == 0 then 0 else DecimalValue(s[..|s| - 1]) * 10 + DigitValue(s[|s| - 1])
  }

  lemma {:induction false} DecimalRoundTrip(n: nat)
    ensures DecimalValue(Decimal(n)) == n
    decreases n
  {
    if n >= 10 {
      var s := Decimal(n);
      assert s[..|s| - 1] == Decimal(n / 10);
      DecimalRoundTrip(n / 10);
    }
  }

  /** A leading zero does not change the value of a digit string. */
  lemma LeadingZero(s: string)
    requires AllDigits(s)
    ensures AllDigits("0" + s) && DecimalValue("0" + s) == DecimalValue(s)
    decreases |s|
  {
    if |s| > 0 {
      assert ("0" + s)[..|"0" + s| - 1] == "0" + s[..|s| - 1];
      LeadingZero(s[..|s| - 1]);
    }
  }

  /** `str(n)` for a Python int. */
  function IntToString(n: int): (s: string)
    ensures n >= 0 ==> |s| >= 1 && AllDigits(s)
    ensures n > 0 ==> s[0] != '0'
    ensures n < 0 ==> |s| >= 2 && s[0] == '-' && AllDigits(s[1..])
  {
    if n < 0 then
      assert ("-" + Decimal(-n))[1..] == Decimal(-n);
      "-" + Decimal(-n)
    else Decimal(n)
  }

  /** The digits `str` prints read back as the number, or as its magnitude
      after the sign. */
  lemma IntToStringRoundTrip(n: int)
    ensures n >= 0 ==> DecimalValue(IntToString(n)) == n
    ensures n < 0 ==> DecimalValue(IntToString(n)[1..]) == -n
  {
    if n < 0 {
      DecimalRoundTrip(-n);
      assert IntToString(n)[1..] == Decimal(-n);
    } else {
      DecimalRoundTrip(n);
    }
  }

  /** Numbers below 1000 print in at most three characters. */
  lemma ThreeDigits(n: int)
    ensures 0 <= n < 1000 ==> |IntToString(n)| <= 3
  {
    if 100 <= n < 1000 {
      assert Decimal(n) == Decimal(n / 10) + [DigitChar(n % 10)];
      assert Decimal(n / 10) == Decimal(n / 100) + [DigitChar(n / 10 % 10)];
    } else if 10 <= n < 100 {
      assert Decimal(n) == Decimal(n / 10) + [DigitChar(n % 10)];
    }
  }

  /** `'{:02d}'.format(n)`: width two, zeros inserted after the sign. A negative
      number already has at least two characters, so only 0..9 are padded. */
  function ZeroPad2(n: int): (s: string)
    ensures 0 <= n < 100 ==> s == [DigitChar(n / 10), DigitChar(n % 10)]
    ensures n >= 0 ==> AllDigits(s) && |s| >= 2
    ensures n < 0 ==> s == IntToString(n)
  {
    if 0 <= n < 10 then "0" + Decimal(n)
    else
      assert 10 <= n < 100 ==> Decimal(n) == Decimal(n / 10) + [DigitChar(n % 10)] == [DigitChar(n / 10), DigitChar(n % 10)];
      IntToString(n)
  }

  /** A zero-padded non-negative field reads back as the number it renders. */
  lemma ZeroPad2Value(n: nat)
    ensures DecimalValue(ZeroPad2(n)) == n
  {
    DecimalRoundTrip(n);
    if n < 10 {
      LeadingZero(Decimal(n));
    }
  }

  /** `'{:3d}'.format(n)`: right aligned in a field of width three. */
  function SpacePad3(n: int): (s: string)
    ensures |s| == if |IntToString(n)| < 3 then 3 else |IntToString(n)|
    ensures s[|s| - |IntToString(n)|..] == IntToString(n)
    ensures forall i :: 0 <= i < |s| - |IntToString(n)| ==> s[i] == ' '
  {
    var t := IntToString(n);
    if |t| < 3 then seq(3 - |t|, _ => ' ') + t else t
  }
}
