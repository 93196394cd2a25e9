/** Python's `str(n)` and `int(text)` on integers, as decimal rendering and parsing. */
module Decimal {
  import opened Wrappers

  predicate IsDigit(c: char) {
    '0' <= c <= '9'
  }

  predicate AllDigits(s: string) {
    |s| > 0 && forall i :: 0 <= i < |s| ==> IsDigit(s[i])
  }

  function DigitChar(d: nat): (c: char)
    requires d < 10
    ensures IsDigit(c)
  {
    ('0' as int + d) as char
  }

  function DigitValue(c: char): (d: nat)
    requires IsDigit(c)
    ensures d < 10
  {
    c as int - '0' as int
  }

  /** The digits of a natural number, most significant first, without leading zeros. */
  function RenderNat(n: nat): (s: string)
    ensures AllDigits(s)
    decreases n
  {
    if n < 10 then [DigitChar(n)] else RenderNat(n / 10) + [DigitChar(n % 10)]
  }

  /** `str(n)`: a leading '-' for negative numbers, then the digits of the magnitude. */
  function Render(n: int): string {
    if n < 0 then "-" + RenderNat(-n) else RenderNat(n)
  }

  /** The value of a digit string read most significant digit first. */
  function ParseDigits(s: string): nat
    requires AllDigits(s)
    decreases |s|
  {
    if |s| == 1 then DigitValue(s[0])
    else ParseDigits(s[..|s| - 1]) * 10 + DigitValue(s[|s| - 1])
  }

  /** `int(text)`: an optional sign followed by one or more decimal digits; anything else is a ValueError. */
  function Parse(s: string): Option<int> {
    if |s| > 0 && (s[0] == '-' || s[0] == '+') then
      if AllDigits(s[1..]) then
        Some(if s[0] == '-' then -(ParseDigits(s[1..]) as int) else ParseDigits(s[1..]))
      else None
    else if AllDigits(s) then Some(ParseDigits(s))
    else None
  }

  lemma {:induction false} ParseRenderNat(n: nat)
    ensures ParseDigits(RenderNat(n)) == n
    decreases n
  {
    if n >= 10 {
      var s := RenderNat(n);
      assert s[..|s| - 1] == RenderNat(n / 10);
      ParseRenderNat(n / 10);
    }
  }

  /** `int(str(n)) == n` for every integer. */
  lemma RoundTrip(n: int)
    ensures Parse(Render(n)) == Some(n)
  {
    if n < 0 {
      var s := Render(n);
      assert s[1..] == RenderNat(-n);
      ParseRenderNat(-n);
    } else {
      ParseRenderNat(n);
    }
  }
}
