/** The two numeric conversions the panic path relies on: `%08x` for register
    values and `%d` for the line number of a failed assertion. */
module Format {

  /** A value of a 32-bit register. */
  type U32 = x: nat | x < 0x1_0000_0000

  /** A lowercase hexadecimal digit. */
  predicate IsHexChar(c: char) {
    '0' <= c <= '9' || 'a' <= c <= 'f'
  }

  function HexDigit(d: nat): (c: char)
    requires d < 16
    ensures IsHexChar(c)
  {
    if d < 10 then ('0' as int + d) as char else ('a' as int + d - 10) as char
  }

  function HexValue(c: char): nat {
    if '0' <= c <= '9' then c as nat - '0' as nat
    else if 'a' <= c <= 'f' then c as nat - 'a' as nat + 10
    else 0
  }

  /** The lowest `n` hexadecimal digits of `v`, most significant first, zero-padded. */
  function HexDigits(v: nat, n: nat): (s: string)
    ensures |s| == n
  {
    if n == 0 then [] else HexDigits(v / 16, n - 1) + [HexDigit(v % 16)]
  }

  lemma {:induction false} HexDigitsAreHex(v: nat, n: nat)
    ensures forall i :: 0 <= i < n ==> IsHexChar(HexDigits(v, n)[i])
  {
    if n > 0 {
      HexDigitsAreHex(v / 16, n - 1);
    }
  }

  /** Reads a string of hexadecimal digits, most significant first. */
  function ParseHex(s: string): nat {
    if s == [] then 0 else ParseHex(s[..|s| - 1]) * 16 + HexValue(s[|s| - 1])
  }

  function Pow16(n: nat): (p: nat)
    ensures p > 0
  {
    if n == 0 then 1 else 16 * Pow16(n - 1)
  }

  /** Reading back `n` digits of a value below 16^n gives the value. */
  lemma {:induction false} ParseHexDigits(v: nat, n: nat)
    requires v < Pow16(n)
    ensures ParseHex(HexDigits(v, n)) == v
  {
    if n > 0 {
      var s := HexDigits(v, n);
      assert s[..|s| - 1] == HexDigits(v / 16, n - 1);
      assert v / 16 < Pow16(n - 1);
      ParseHexDigits(v / 16, n - 1);
      assert HexValue(HexDigit(v % 16)) == v % 16;
    }
  }

  /** `%08x` of a 32-bit value. */
  function Hex8(v: U32): (s: string)
    ensures |s| == 8
  {
    HexDigits(v, 8)
  }

  /** `%08x` gives exactly eight lowercase hexadecimal digits that read back
      as the value. */
  lemma Hex8RoundTrip(v: U32)
    ensures forall i :: 0 <= i < 8 ==> IsHexChar(Hex8(v)[i])
    ensures ParseHex(Hex8(v)) == v
  {
    HexDigitsAreHex(v, 8);
    assert Pow16(8) == 0x1_0000_0000;
    ParseHexDigits(v, 8);
  }

  /** Two distinct register values never print the same. */
  lemma Hex8Injective(a: U32, b: U32)
    requires Hex8(a) == Hex8(b)
    ensures a == b
  {
    Hex8RoundTrip(a);
    Hex8RoundTrip(b);
  }

  function DecimalDigit(d: nat): (c: char)
    requires d < 10
    ensures '0' <= c <= '9'
  {
    ('0' as int + d) as char
  }

  /** The shortest decimal representation of `n`. */
  function NatToDecimal(n: nat): (s: string)
    ensures |s| > 0
    ensures forall i :: 0 <= i < |s| ==> '0' <= s[i] <= '9'
    ensures |s| > 1 ==> s[0] != '0'
  {
    if n < 10 then [DecimalDigit(n)] else NatToDecimal(n / 10) + [DecimalDigit(n % 10)]
  }

  /** `%d`: a minus sign for negative values, then the digits of the magnitude. */
  function IntToDecimal(n: int): (s: string)
    ensures |s| > 0
    ensures forall i :: 0 < i < |s| ==> '0' <= s[i] <= '9'
    ensures (s[0] == '-') == (n < 0)
    ensures n >= 0 ==> '0' <= s[0] <= '9'
  {
    if n < 0 then "-" + NatToDecimal(-n) else NatToDecimal(n)
  }

  function ParseNat(s: string): nat {
    if s == [] then 0 else ParseNat(s[..|s| - 1]) * 10 + ((s[|s| - 1] as int - '0' as int) % 10)
  }

  function ParseInt(s: string): int {
    if s != [] && s[0] == '-' then 0 - ParseNat(s[1..]) else ParseNat(s)
  }

  lemma {:induction false} ParseNatToDecimal(n: nat)
    ensures ParseNat(NatToDecimal(n)) == n
  {
    if n >= 10 {
      var s := NatToDecimal(n);
      assert s[..|s| - 1] == NatToDecimal(n / 10);
      ParseNatToDecimal(n / 10);
    }
  }

  /** `%d` reads back as the number it printed. */
  lemma IntToDecimalRoundTrip(n: int)
    ensures ParseInt(IntToDecimal(n)) == n
  {
    if n < 0 {
      assert IntToDecimal(n)[1..] == NatToDecimal(-n);
      ParseNatToDecimal(-n);
    } else {
      ParseNatToDecimal(n);
    }
  }
}
