/**
 * Python text helpers the protocol relies on: the slice `s[:n]` used to
 * truncate digests, and `str(n)` used to put integers (challenge values,
 * Unix seconds) into hash preimages and transaction ids.
 */
module Text {

  type Str = seq<char>

  datatype Option<+T> = None | Some(value: T)

  /** Python's `s[:n]` for n >= 0: the first n characters, or all of `s` when it is shorter. */
  function Take(s: Str, n: nat): (r: Str)
    ensures r <= s
    ensures |r| == if |s| < n then |s| else n
  {
    if |s| <= n then s else s[..n]
  }

  predicate IsDigit(ch: char) {
    '0' <= ch <= '9'
  }

  function DigitChar(d: nat): (ch: char)
    requires d < 10
    ensures IsDigit(ch)
  {
    (48 + d) as char
  }

  function DigitValue(ch: char): nat {
    if IsDigit(ch) then ch as int - 48 else 0
  }

  /** Decimal digits of `n`, most significant first, without leading zeros. */
  function NatToStr(n: nat): (r: Str)
    ensures |r| > 0
    ensures forall i :: 0 <= i < |r| ==> IsDigit(r[i])
    decreases n
  {
    if n < 10 then [DigitChar(n)] else NatToStr(n / 10) + [DigitChar(n % 10)]
  }

  /** Python's `str(n)` for an int: a minus sign for negatives, then the decimal digits. */
  function IntToStr(n: int): (r: Str)
    ensures |r| > 0
  {
    if n < 0 then "-" + NatToStr(-n) else NatToStr(n)
  }

  /** The value of a string of decimal digits (the reading direction of `NatToStr`). */
  function DigitsValue(s: Str): nat
    decreases |s|
  {
    if s == [] then 0 else DigitsValue(s[..|s| - 1]) * 10 + DigitValue(s[|s| - 1])
  }

  /** Python's `int(s)` on what `str` produces. */
  function ParseInt(s: Str): int {
    if |s| > 0 && s[0] == '-' then -(DigitsValue(s[1..]) as int) else DigitsValue(s)
  }

  lemma {:induction false} DigitsValueOfNatToStr(n: nat)
    ensures DigitsValue(NatToStr(n)) == n
    decreases n
  {
    var s := NatToStr(n);
    if n >= 10 {
      DigitsValueOfNatToStr(n / 10);
      assert s[..|s| - 1] == NatToStr(n / 10);
    }
  }

  /** `str` loses no information: reading its output back gives the integer. */
  lemma ParseIntOfIntToStr(n: int)
    ensures ParseInt(IntToStr(n)) == n
  {
    if n < 0 {
      DigitsValueOfNatToStr(-n);
      assert IntToStr(n)[1..] == NatToStr(-n);
    } else {
      DigitsValueOfNatToStr(n);
      assert IsDigit(NatToStr(n)[0]);
    }
  }

  /** Distinct integers print differently. */
  lemma IntToStrInjective(a: int, b: int)
    requires a != b
    ensures IntToStr(a) != IntToStr(b)
  {
    ParseIntOfIntToStr(a);
    ParseIntOfIntToStr(b);
  }

  lemma CancelPrefix(a: Str, x: Str, y: Str)
    ensures a + x == a + y ==> x == y
  {
    if a + x == a + y {
      assert x == (a + x)[|a|..];
    }
  }

  lemma CancelSuffix(x: Str, y: Str, b: Str)
    ensures x + b == y + b ==> x == y
  {
    if x + b == y + b {
      assert x == (x + b)[..|x|];
    }
  }
}
