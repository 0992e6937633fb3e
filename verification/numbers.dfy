/** How ids travel as text. The gateway writes an id into a URL with a
    template literal (`${id}`), and every handler reads it back with
    `parseInt(req.params.id)`; the not-found messages print the parsed id the
    same way. Only decimal integers are modelled. */
module Numbers {

  /** The result of `parseInt` on a URL segment: an integer, or NaN when the
      segment does not start with digits. */
  datatype ParsedInt = Int(value: int) | NaN

  predicate IsDigit(c: char) {
    '0' <= c <= '9'
  }

  function DigitChar(d: nat): char
    requires d < 10
  {
    "0123456789"[d]
  }

  /** Decimal digits of a natural number, most significant first. */
  function NatToString(n: nat): (r: string)
    decreases n
    ensures |r| >= 1
    ensures forall i :: 0 <= i < |r| ==> IsDigit(r[i])
  {
    if n < 10 then [DigitChar(n)] else NatToString(n / 10) + [DigitChar(n % 10)]
  }

  /** String conversion of a parsed id, as a template literal prints it. */
  function Show(p: ParsedInt): string {
    match p
    case NaN => "NaN"
    case Int(v) => if v < 0 then "-" + NatToString(-v) else NatToString(v)
  }

  /** Value of a string of decimal digits, read left to right. */
  function DigitsValue(s: string): nat
    requires forall i :: 0 <= i < |s| ==> IsDigit(s[i])
  {
    if |s| == 0 then 0
    else DigitsValue(s[..|s| - 1]) * 10 + DigitOf(s[|s| - 1])
  }

  function DigitOf(c: char): nat
    requires IsDigit(c)
  {
    c as int - '0' as int
  }

  /** Length of the longest prefix of `s` made of digits. */
  function LeadingDigits(s: string): (k: nat)
    ensures k <= |s|
    ensures forall i :: 0 <= i < k ==> IsDigit(s[i])
    ensures k < |s| ==> !IsDigit(s[k])
  {
    if |s| == 0 || !IsDigit(s[0]) then 0 else 1 + LeadingDigits(s[1..])
  }

  /** Unsigned part of `parseInt`: the value of the leading digits, NaN if there are none. */
  function ParseUnsigned(s: string): ParsedInt {
    var k := LeadingDigits(s);
    if k == 0 then NaN else Int(DigitsValue(s[..k]))
  }

  /** `parseInt(s)` in base 10: an optional sign, then the leading digits;
      whatever follows them is ignored. */
  function ParseInt(s: string): ParsedInt {
    if |s| > 0 && s[0] == '-' then
      match ParseUnsigned(s[1..])
      case NaN => NaN
      case Int(v) => Int(-v)
    else if |s| > 0 && s[0] == '+' then ParseUnsigned(s[1..])
    else ParseUnsigned(s)
  }

  lemma {:induction false} DigitsOfNat(n: nat)
    ensures DigitsValue(NatToString(n)) == n
  {
    var r := NatToString(n);
    if n >= 10 {
      DigitsOfNat(n / 10);
      assert r[..|r| - 1] == NatToString(n / 10);
    }
  }

  lemma ParseUnsignedOfNat(n: nat)
    ensures ParseUnsigned(NatToString(n)) == Int(n)
  {
    var s := NatToString(n);
    assert LeadingDigits(s) == |s| by { LeadingDigitsAll(s); }
    assert s[..|s|] == s;
    DigitsOfNat(n);
  }

  lemma {:induction false} LeadingDigitsAll(s: string)
    requires forall i :: 0 <= i < |s| ==> IsDigit(s[i])
    ensures LeadingDigits(s) == |s|
  {
    if |s| > 0 {
      LeadingDigitsAll(s[1..]);
    }
  }

  /** Writing a parsed id into a URL and parsing it back on the other side
      yields the same id, NaN included: the backend looks up exactly the id
      the gateway meant. */
  lemma ParseShow(p: ParsedInt)
    ensures ParseInt(Show(p)) == p
  {
    match p
    case NaN =>
      assert !IsDigit(Show(p)[0]);
    case Int(v) =>
      if v < 0 {
        ParseNegative(-v);
      } else {
        ParseNonNegative(v);
      }
  }

  lemma ParseNegative(n: nat)
    requires n > 0
    ensures ParseInt("-" + NatToString(n)) == Int(-(n as int))
  {
    var s := "-" + NatToString(n);
    assert s[1..] == NatToString(n);
    ParseUnsignedOfNat(n);
  }

  lemma ParseNonNegative(n: nat)
    ensures ParseInt(NatToString(n)) == Int(n)
  {
    assert IsDigit(NatToString(n)[0]);
    ParseUnsignedOfNat(n);
  }
}
