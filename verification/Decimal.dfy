/** Signed decimals as Go prints and parses 64-bit integers. */
module Decimal {
  import opened Options

  const MIN := -0x8000_0000_0000_0000
  const MAX := 0x7fff_ffff_ffff_ffff

  function Digit(d: nat): char
    requires d < 10
  {
    '0' + d as char
  }

  predicate IsDigit(c: char) {
    '0' <= c <= '9'
  }

  function Digits(n: nat): (s: string)
    ensures s != [] && forall i | 0 <= i < |s| :: IsDigit(s[i])
  {
    if n < 10 then [Digit(n)] else Digits(n / 10) + [Digit(n % 10)]
  }

  /** `strconv.FormatInt(n, 10)` and the `%d` verb. */
  function FormatInt(n: int): string {
    if n < 0 then "-" + Digits(-n) else Digits(n)
  }

  function ParseDigits(s: string): Option<nat> {
    if s == [] then None
    else
      var last := s[|s| - 1];
      if !IsDigit(last) then None
      else if |s| == 1 then Some((last - '0') as nat)
      else
        match ParseDigits(s[..|s| - 1])
        case None => None
        case Some(n) => Some(10 * n + (last - '0') as nat)
  }

  /** `strconv.ParseInt(s, 10, 64)`: an optional sign, digits, and nothing outside the 64-bit range. */
  function ParseInt(s: string): Option<int> {
    var signed := s != [] && (s[0] == '-' || s[0] == '+');
    match ParseDigits(if signed then s[1..] else s)
    case None => None
    case Some(n) =>
      var abs: int := n;
      var v := if signed && s[0] == '-' then -abs else abs;
      if MIN <= v <= MAX then Some(v) else None
  }

  lemma {:induction false} DigitsRoundTrip(n: nat)
    ensures ParseDigits(Digits(n)) == Some(n)
  {
    if n >= 10 {
      DigitsRoundTrip(n / 10);
      assert Digits(n)[..|Digits(n)| - 1] == Digits(n / 10);
    }
  }

  /** Printing a 64-bit integer and reading it back gives the integer. */
  lemma IntRoundTrip(n: int)
    requires MIN <= n <= MAX
    ensures ParseInt(FormatInt(n)) == Some(n)
  {
    if n < 0 {
      DigitsRoundTrip(-n);
      assert FormatInt(n)[1..] == Digits(-n);
    } else {
      DigitsRoundTrip(n);
      assert IsDigit(Digits(n)[0]);
    }
  }

  // ------------------------------------------------------------- what the digits say

  function PowerOfTen(k: nat): nat {
    if k == 0 then 1 else 10 * PowerOfTen(k - 1)
  }

  /** The value of digits by their places, the leftmost counting most. */
  function PlaceValue(s: string): int
    requires forall i | 0 <= i < |s| :: IsDigit(s[i])
  {
    if s == [] then 0
    else (s[0] as int - '0' as int) * PowerOfTen(|s| - 1) + PlaceValue(s[1..])
  }

  lemma TenTimes(digit: int, power: nat)
    ensures digit * (10 * power) == 10 * (digit * power)
  {
  }

  lemma {:induction false} OnePlaceMore(s: string, c: char)
    requires IsDigit(c) && forall i | 0 <= i < |s| :: IsDigit(s[i])
    ensures PlaceValue(s + [c]) == 10 * PlaceValue(s) + (c as int - '0' as int)
  {
    var t := s + [c];
    if s == [] {
      assert t == [c] && [c][1..] == [] && PowerOfTen(0) == 1;
    } else {
      var digit, power := s[0] as int - '0' as int, PowerOfTen(|s| - 1);
      assert t[1..] == s[1..] + [c] && t[0] == s[0] && PowerOfTen(|s|) == 10 * power;
      OnePlaceMore(s[1..], c);
      TenTimes(digit, power);
      assert PlaceValue(t) == digit * (10 * power) + PlaceValue(t[1..]);
      assert PlaceValue(s) == digit * power + PlaceValue(s[1..]);
    }
  }

  /** Numbers are printed in base ten, with a sign only in front of negative ones and without leading zeros. */
  lemma {:induction false} PrintedInDecimal(n: int)
    ensures var s := FormatInt(n);
            if n < 0 then s[0] == '-' && PlaceValue(s[1..]) == -n else PlaceValue(s) == n
    ensures var d := Digits(if n < 0 then -n else n); d[0] == '0' ==> n == 0 && |d| == 1
    decreases if n < 0 then -n else n
  {
    var m := if n < 0 then -n else n;
    if n < 0 {
      assert FormatInt(n)[1..] == Digits(m);
    }
    if m >= 10 {
      PrintedInDecimal(m / 10);
      OnePlaceMore(Digits(m / 10), Digit(m % 10));
    } else {
      assert PlaceValue([Digit(m)]) == m by { assert [Digit(m)][1..] == []; }
    }
  }
}
