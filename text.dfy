/** The hub's two string methods, `Echo` and `Concatenate`. */
module Text {
  import opened Int32Arith

  /** `Echo(message)`: answers with the message it was sent. */
  function Echo(message: string): (r: string)
    ensures r == message
  {
    message
  }

  predicate IsDigit(c: char)
  {
    '0' <= c <= '9'
  }

  function DigitChar(d: nat): (c: char)
    requires d < 10
  {
    (('0' as int) + d) as char
  }

  function DigitValue(c: char): int
  {
    (c as int) - ('0' as int)
  }

  /** The decimal digits of n, most significant first, without leading zeros. */
  function NatToDecimal(n: nat): (r: string)
    ensures |r| >= 1 && forall i :: 0 <= i < |r| ==> IsDigit(r[i])
    ensures r[0] == '0' ==> n == 0 && r == "0"
    decreases n
  {
    if n < 10 then [DigitChar(n)] else NatToDecimal(n / 10) + [DigitChar(n % 10)]
  }

  /** `n.ToString()` for an `int`: a minus sign, then the digits of |n|. */
  function IntToDecimal(n: int): (r: string)
    ensures |r| >= 1 && (r[0] == '-' <==> n < 0)
    ensures forall i :: (if n < 0 then 1 else 0) <= i < |r| ==> IsDigit(r[i])
    ensures n < 0 ==> |r| >= 2 && r[1] != '0'
    ensures n >= 0 && r[0] == '0' ==> r == "0"
  {
    if n < 0 then "-" + NatToDecimal(-n) else NatToDecimal(n)
  }

  /** Reads a run of decimal digits back as a number. */
  function ParseDigits(s: string): int
  {
    if s == [] then 0 else ParseDigits(s[..|s| - 1]) * 10 + DigitValue(s[|s| - 1])
  }

  /** Reads an optionally signed decimal numeral back as a number. */
  function ParseDecimal(s: string): int
  {
    if |s| > 0 && s[0] == '-' then -ParseDigits(s[1..]) else ParseDigits(s)
  }

  lemma {:induction false} ParseNatToDecimal(n: nat)
    ensures ParseDigits(NatToDecimal(n)) == n
    decreases n
  {
    var r := NatToDecimal(n);
    if n >= 10 {
      ParseNatToDecimal(n / 10);
      assert r[..|r| - 1] == NatToDecimal(n / 10);
    } else {
      assert r[..0] == [];
    }
  }

  /** Formatting an `int` in decimal loses nothing: parsing the text gives the number back. */
  lemma IntToDecimalRoundTrip(n: int)
    ensures ParseDecimal(IntToDecimal(n)) == n
  {
    if n < 0 {
      ParseNatToDecimal(-n);
      assert IntToDecimal(n)[1..] == NatToDecimal(-n);
    } else {
      ParseNatToDecimal(n);
    }
  }

  /**
   * `Concatenate(s, n)` = `$"{s} {n}"`: the string, one space, then the number
   * as a canonical decimal numeral (a sign only for negatives, digits, no
   * leading zero), from which the number can be read back.
   */
  function Concatenate(s: string, n: Int32): (r: string)
    ensures |r| > |s| + 1 && r[..|s| + 1] == s + " "
    ensures ParseDecimal(r[|s| + 1..]) == n
    ensures r[|s| + 1] == '-' <==> n < 0
    ensures forall i :: |s| + 1 + (if n < 0 then 1 else 0) <= i < |r| ==> IsDigit(r[i])
    ensures n < 0 ==> |r| > |s| + 2 && r[|s| + 2] != '0'
    ensures n >= 0 && r[|s| + 1] == '0' ==> r[|s| + 1..] == "0"
  {
    var r := s + " " + IntToDecimal(n);
    assert r[|s| + 1..] == IntToDecimal(n);
    IntToDecimalRoundTrip(n);
    r
  }
}
