/**
 Integer text and Go's float-to-int conversion, as used for the heater's text element:
 `strconv.Itoa(int(per))`. `int(per)` truncates toward zero, unlike `real.Floor`.
 */
module Decimal {

  /** Go's `int(x)` on a float: the integer part, rounded toward zero. */
  function Truncate(x: real): (n: int)
    ensures n as real <= x < n as real + 1.0 || n as real - 1.0 < x <= n as real
    ensures 0.0 <= x ==> 0 <= n && n as real <= x < n as real + 1.0
    ensures x <= 0.0 ==> n <= 0 && n as real - 1.0 < x <= n as real
  {
    if x >= 0.0 then x.Floor else -((-x).Floor)
  }

  function DigitChar(d: int): (c: char)
    requires 0 <= d < 10
    ensures '0' <= c <= '9'
  {
    "0123456789"[d]
  }

  function DigitValue(c: char): int
    requires '0' <= c <= '9'
  {
    c as int - '0' as int
  }

  /** The decimal digits of n, most significant first, without leading zeros. */
  function Digits(n: nat): (s: string)
    ensures |s| >= 1
    ensures forall i :: 0 <= i < |s| ==> '0' <= s[i] <= '9'
    ensures |s| > 1 ==> s[0] != '0'
  {
    if n < 10 then [DigitChar(n)] else Digits(n / 10) + [DigitChar(n % 10)]
  }

  /** `strconv.Itoa`: base-10 text of n, with a leading '-' for negative n. */
  function Itoa(n: int): (s: string)
    ensures |s| >= 1 && (s[0] == '-' <==> n < 0)
    ensures forall i :: 0 < i < |s| ==> '0' <= s[i] <= '9'
  {
    if n < 0 then "-" + Digits(-n) else Digits(n)
  }

  /** The value of a string of decimal digits. */
  function DigitsValue(s: string): int
    requires forall i :: 0 <= i < |s| ==> '0' <= s[i] <= '9'
  {
    if s == [] then 0 else 10 * DigitsValue(s[..|s| - 1]) + DigitValue(s[|s| - 1])
  }

  /** Reads back the text Itoa writes: an optional '-' followed by digits. */
  function Atoi(s: string): int
    requires |s| >= 1
    requires s[0] == '-' ==> forall i :: 1 <= i < |s| ==> '0' <= s[i] <= '9'
    requires s[0] != '-' ==> forall i :: 0 <= i < |s| ==> '0' <= s[i] <= '9'
  {
    if s[0] == '-' then -DigitsValue(s[1..]) else DigitsValue(s)
  }

  lemma {:induction false} DigitsRoundTrip(n: nat)
    ensures DigitsValue(Digits(n)) == n
  {
    if n >= 10 {
      var s := Digits(n);
      DigitsRoundTrip(n / 10);
      assert s[..|s| - 1] == Digits(n / 10);
    }
  }

  /** Itoa is canonical decimal: no leading zero, '-' only for negatives, and Atoi inverts it. */
  lemma {:induction false} ItoaRoundTrip(n: int)
    ensures |Itoa(n)| >= 1
    ensures (Itoa(n)[0] == '-') <==> n < 0
    ensures Atoi(Itoa(n)) == n
    ensures Itoa(n) == "0" || Itoa(n)[0] != '0'
  {
    if n < 0 {
      var d := Digits(-n);
      var s := "-" + d;
      assert s[1..] == d;
      DigitsRoundTrip(-n);
      assert Atoi(s) == -DigitsValue(d);
    } else {
      var d := Digits(n);
      DigitsRoundTrip(n);
      assert d[0] != '-';
      assert Atoi(d) == DigitsValue(d);
      if |d| == 1 && d[0] == '0' {
        assert DigitsValue(d) == 10 * DigitsValue(d[..0]) + 0;
        assert d == "0";
      }
    }
  }
}
