/** Decimal text of integer-valued JavaScript numbers of magnitude at most
    2^53, as produced by a template literal `${n}` and by `JSON.stringify`,
    together with a reader for that text that serves as its inverse. */
module NumberText {
  import opened Wrappers

  predicate IsDigit(c: char) {
    '0' <= c <= '9'
  }

  /** A character that can occur in the text of an integer. */
  predicate IsNumberChar(c: char) {
    c == '-' || IsDigit(c)
  }

  /** Every character of `s` can occur in the text of an integer. */
  predicate AllNumberChars(s: string) {
    forall i :: 0 <= i < |s| ==> IsNumberChar(s[i])
  }

  predicate IsDigits(s: string) {
    |s| > 0 && forall i :: 0 <= i < |s| ==> IsDigit(s[i])
  }

  function DigitChar(d: nat): (c: char)
    requires d < 10
    ensures IsDigit(c)
    ensures c as int - '0' as int == d
  {
    (('0' as int) + d) as char
  }

  function DigitValue(c: char): (d: nat)
    requires IsDigit(c)
    ensures d < 10
  {
    c as int - '0' as int
  }

  /** Shortest decimal text of a natural number: no sign, no leading zeros. */
  function NatToString(n: nat): (s: string) {
    if n < 10 then [DigitChar(n)] else NatToString(n / 10) + [DigitChar(n % 10)]
  }

  /** JavaScript's text of an integer-valued number of magnitude at most
      2^53: a minus sign for a negative value, then the digits of its
      magnitude. Reading it back with `ParseInt` gives the number. Above
      2^53, JavaScript prints the shortest round-trip digits and, from 10^21
      on, exponent form; this function does not. */
  function IntToString(n: int): (s: string)
    ensures ParseInt(s) == Some(n)
  {
    if n < 0 then
      var t := "-" + NatToString(-n);
      DigitsValueOfNat(-n);
      assert t[1..] == NatToString(-n);
      t
    else
      DigitsValueOfNat(n);
      NatToString(n)
  }

  /** Value of a run of decimal digits, read most significant first. */
  function DigitsValue(s: string): (n: nat)
    requires IsDigits(s)
  {
    if |s| == 1 then DigitValue(s[0])
    else DigitsValue(s[..|s| - 1]) * 10 + DigitValue(s[|s| - 1])
  }

  /** Reads an optional minus sign followed by at least one digit. */
  function ParseInt(s: string): (r: Option<int>)
    ensures r.Some? ==> |s| > 0 && AllNumberChars(s)
  {
    if |s| > 0 && s[0] == '-' then
      if IsDigits(s[1..]) then Some(-(DigitsValue(s[1..]) as int)) else None
    else if IsDigits(s) then Some(DigitsValue(s))
    else None
  }

  /** Length of the longest prefix of `s` made of number characters. */
  function NumberSpan(s: string): (n: nat)
    ensures n <= |s|
    ensures n < |s| ==> !IsNumberChar(s[n])
  {
    if |s| == 0 || !IsNumberChar(s[0]) then 0 else 1 + NumberSpan(s[1..])
  }

  /** The text of a natural number is a run of digits without a redundant
      leading zero, one character long exactly for the values below ten. */
  lemma {:induction false} NatToStringShape(n: nat)
    ensures IsDigits(NatToString(n))
    ensures n < 10 <==> |NatToString(n)| == 1
    ensures |NatToString(n)| > 1 ==> NatToString(n)[0] != '0'
  {
    if n >= 10 {
      NatToStringShape(n / 10);
      var p := NatToString(n / 10);
      assert NatToString(n) == p + [DigitChar(n % 10)];
      assert NatToString(n)[0] == p[0];
    }
  }

  /** The text of an integer is made of number characters, starts with a
      minus sign exactly when the integer is negative, and has no redundant
      leading zero. */
  lemma IntToStringShape(n: int)
    ensures |IntToString(n)| > 0 && AllNumberChars(IntToString(n))
    ensures IntToString(n)[0] == '-' <==> n < 0
    ensures n >= 0 && |IntToString(n)| > 1 ==> IntToString(n)[0] != '0'
    ensures n < 0 ==> |IntToString(n)| >= 2 && IntToString(n)[1] != '0'
  {
    NatToStringShape(if n < 0 then -n else n);
    if n < 0 {
      assert IntToString(n)[1..] == NatToString(-n);
    }
  }

  lemma {:induction false} DigitsValueOfNat(n: nat)
    ensures IsDigits(NatToString(n)) && DigitsValue(NatToString(n)) == n
  {
    NatToStringShape(n);
    if n >= 10 {
      var s := NatToString(n);
      var p := NatToString(n / 10);
      assert s == p + [DigitChar(n % 10)];
      assert s[..|s| - 1] == p;
      DigitsValueOfNat(n / 10);
    }
  }

  /** The text of an integer ends where the next non-number character starts. */
  lemma {:induction false} NumberSpanConcat(a: string, rest: string)
    requires AllNumberChars(a)
    requires rest == [] || !IsNumberChar(rest[0])
    ensures NumberSpan(a + rest) == |a|
  {
    if |a| > 0 {
      assert (a + rest)[1..] == a[1..] + rest;
      NumberSpanConcat(a[1..], rest);
    }
  }
}
