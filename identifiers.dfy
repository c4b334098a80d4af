/**
  Text forms of identifiers: the canonical text of a UUID (what UUID.toString
  produces) and the decimal text of a Java int (what string concatenation of
  an Integer produces).
 */
module Identifiers {

  predicate IsLowerHexDigit(c: char) {
    ('0' <= c <= '9') || ('a' <= c <= 'f')
  }

  /** 8-4-4-4-12 lower-case hexadecimal digits separated by '-'. */
  predicate IsUuidText(s: string) {
    && |s| == 36
    && forall i :: 0 <= i < 36 ==>
         if i == 8 || i == 13 || i == 18 || i == 23 then s[i] == '-' else IsLowerHexDigit(s[i])
  }

  /** A UUID, identified with its canonical text. */
  type Uuid = s: string | IsUuidText(s) witness "00000000-0000-0000-0000-000000000000"

  lemma UuidTextHasNoColon(u: Uuid)
    ensures forall i :: 0 <= i < |u| ==> u[i] != ':'
  {
    forall i | 0 <= i < |u| ensures u[i] != ':' {
      assert if i == 8 || i == 13 || i == 18 || i == 23 then u[i] == '-' else IsLowerHexDigit(u[i]);
    }
  }

  predicate IsDigit(c: char) {
    '0' <= c <= '9'
  }

  function DigitChar(d: nat): (c: char)
    requires d < 10
    ensures IsDigit(c)
  {
    "0123456789"[d]
  }

  function DigitValue(c: char): nat
    requires IsDigit(c)
  {
    (c as int - '0' as int) as nat
  }

  lemma DigitRoundTrip(d: nat)
    requires d < 10
    ensures DigitValue(DigitChar(d)) == d
  {
  }

  /** Decimal digits of a natural number, most significant first, no leading zero. */
  function NatToString(n: nat): (s: string)
    ensures |s| > 0
    ensures forall i :: 0 <= i < |s| ==> IsDigit(s[i])
  {
    if n < 10 then [DigitChar(n)] else NatToString(n / 10) + [DigitChar(n % 10)]
  }

  /** Integer.toString: a '-' in front of the digits of the magnitude when negative. */
  function IntToString(n: int): (s: string)
    ensures forall i :: 0 <= i < |s| ==> s[i] != ':'
  {
    if n < 0 then "-" + NatToString(-n) else NatToString(n)
  }

  function ParseDigits(s: string): nat
    requires forall i :: 0 <= i < |s| ==> IsDigit(s[i])
  {
    if s == [] then 0 else ParseDigits(s[..|s| - 1]) * 10 + DigitValue(s[|s| - 1])
  }

  /** Reads back what IntToString writes. */
  function ParseInt(s: string): int
  {
    if |s| > 0 && s[0] == '-' && (forall i :: 1 <= i < |s| ==> IsDigit(s[i])) then
      -(ParseDigits(s[1..]) as int)
    else if forall i :: 0 <= i < |s| ==> IsDigit(s[i]) then
      ParseDigits(s)
    else
      0
  }

  lemma {:induction false} ParseNatToString(n: nat)
    ensures ParseDigits(NatToString(n)) == n
  {
    var s := NatToString(n);
    if n < 10 {
      DigitRoundTrip(n);
    } else {
      ParseNatToString(n / 10);
      assert s[..|s| - 1] == NatToString(n / 10);
      DigitRoundTrip(n % 10);
    }
  }

  /** Decimal rendering of an int is read back exactly. */
  lemma IntToStringRoundTrip(n: int)
    ensures ParseInt(IntToString(n)) == n
  {
    var s := IntToString(n);
    if n < 0 {
      var m := NatToString(-n);
      assert s[1..] == m;
      ParseNatToString(-n);
    } else {
      ParseNatToString(n);
      assert s[0] != '-';
    }
  }

  lemma IntToStringInjective(a: int, b: int)
    ensures IntToString(a) == IntToString(b) <==> a == b
  {
    if IntToString(a) == IntToString(b) {
      IntToStringRoundTrip(a);
      IntToStringRoundTrip(b);
    }
  }
}
