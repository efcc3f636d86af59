/**
 * Python's `str(k)` on an int and `int(s)` on a string, as save_config and
 * load_config use them to turn the per-mode map keys into JSON object keys
 * and back. `int(s)` is modelled on an optional sign followed by ASCII
 * digits; None stands for the ValueError Python raises.
 */
module Decimal {
  import opened Wrappers

  predicate IsDigit(c: char) {
    '0' <= c <= '9'
  }

  predicate AllDigits(s: string) {
    forall i :: 0 <= i < |s| ==> IsDigit(s[i])
  }

  function DigitValue(c: char): (d: nat)
    requires IsDigit(c)
    ensures d < 10
  {
    (c as int) - ('0' as int)
  }

  function DigitChar(d: nat): (c: char)
    requires d < 10
    ensures IsDigit(c) && DigitValue(c) == d
  {
    (('0' as int) + d) as char
  }

  /** The decimal digits of n, most significant first, without leading zeros. */
  function NatToStr(n: nat): (s: string)
    ensures s != [] && AllDigits(s)
    ensures |s| > 1 ==> s[0] != '0'
    decreases n
  {
    if n < 10 then [DigitChar(n)] else NatToStr(n / 10) + [DigitChar(n % 10)]
  }

  /** `str(k)`: a minus sign exactly for negative k, then the digits of |k|. */
  function IntToStr(k: int): (s: string)
    ensures s != [] && (s[0] == '-' <==> k < 0)
  {
    if k < 0 then "-" + NatToStr(-k) else NatToStr(k)
  }

  /** The value of a string of decimal digits, read left to right. */
  function DigitsValue(s: string): nat
    requires AllDigits(s)
  {
    if s == [] then 0 else DigitsValue(s[..|s| - 1]) * 10 + DigitValue(s[|s| - 1])
  }

  /** `int(s)` on an optionally signed string of ASCII digits. */
  function ParseInt(s: string): (r: Option<int>)
    ensures r.Some? ==> s != [] && (r.value < 0 ==> s[0] == '-')
  {
    if s != [] && (s[0] == '-' || s[0] == '+') then
      if |s| >= 2 && AllDigits(s[1..]) then
        var v: int := DigitsValue(s[1..]);
        Some(if s[0] == '-' then -v else v)
      else
        None
    else if s != [] && AllDigits(s) then
      Some(DigitsValue(s))
    else
      None
  }

  /** Reading back the digits of n gives n. */
  lemma {:induction false} DigitsValueOfNatToStr(n: nat)
    ensures DigitsValue(NatToStr(n)) == n
  {
    if n >= 10 {
      var prefix := NatToStr(n / 10);
      var s := prefix + [DigitChar(n % 10)];
      assert s[..|s| - 1] == prefix;
      DigitsValueOfNatToStr(n / 10);
    }
  }

  /** `int(str(k)) == k` for every int k. */
  lemma ParseIntOfIntToStr(k: int)
    ensures ParseInt(IntToStr(k)) == Some(k)
  {
    if k < 0 {
      var s := IntToStr(k);
      assert s[1..] == NatToStr(-k);
      DigitsValueOfNatToStr(-k);
    } else {
      DigitsValueOfNatToStr(k);
    }
  }

  /** Distinct ints print as distinct strings. */
  lemma IntToStrInjective(a: int, b: int)
    ensures IntToStr(a) == IntToStr(b) ==> a == b
  {
    ParseIntOfIntToStr(a);
    ParseIntOfIntToStr(b);
  }
}
