/** Decimal integers as JavaScript writes them (`String(n)`) and reads them
    (`Number.parseInt(s, 10)`), for integers only. */
module Numbers {
  import opened Wrappers
  import Text

  predicate IsDigit(c: char) {
    '0' <= c <= '9'
  }

  predicate AllDigits(s: string) {
    forall i :: 0 <= i < |s| ==> IsDigit(s[i])
  }

  function DigitChar(d: nat): (c: char)
    requires d < 10
    ensures IsDigit(c)
  {
    ('0' as int + d) as char
  }

  function DigitValue(c: char): nat
    requires IsDigit(c)
  {
    c as int - '0' as int
  }

  /** `String(n)` for a non-negative integer: its decimal digits, without leading zeros. */
  function NatToString(n: nat): (r: string)
    ensures |r| >= 1 && AllDigits(r)
    ensures r[0] == '0' ==> n == 0
  {
    if n < 10 then [DigitChar(n)] else NatToString(n / 10) + [DigitChar(n % 10)]
  }

  /** `String(n)` for any integer. */
  function IntToString(n: int): (r: string)
    ensures |r| >= 1
    ensures r[0] == '-' <==> n < 0
  {
    if n < 0 then "-" + NatToString(-n) else NatToString(n)
  }

  /** The value of a run of decimal digits. */
  function DigitsValue(ds: string): nat
    requires AllDigits(ds)
  {
    if ds == [] then 0 else DigitsValue(ds[..|ds| - 1]) * 10 + DigitValue(ds[|ds| - 1])
  }

  /** The longest run of digits at the start of `s`. */
  function LeadingDigits(s: string): (r: string)
    ensures |r| <= |s| && AllDigits(r)
  {
    if s != [] && IsDigit(s[0]) then [s[0]] + LeadingDigits(s[1..]) else []
  }

  /** The run is a prefix of `s`, and the character after it, if any, is
      not a digit. */
  lemma {:induction false} LeadingDigitsIsLongest(s: string)
    ensures LeadingDigits(s) == s[..|LeadingDigits(s)|]
    ensures |LeadingDigits(s)| == |s| || !IsDigit(s[|LeadingDigits(s)|])
  {
    if s != [] && IsDigit(s[0]) {
      LeadingDigitsIsLongest(s[1..]);
      var r := LeadingDigits(s[1..]);
      assert s[1..][..|r|] == s[1..|r| + 1];
      assert |r| < |s| - 1 ==> s[1..][|r|] == s[|r| + 1];
    }
  }

  /** `Number.parseInt(s, 10)`: skips leading white space, reads an optional
      sign and then the longest run of digits; `None` stands for NaN, which
      is what JavaScript gives when no digit follows the sign. */
  function ParseIntPrefix(s: string): (r: Option<int>)
    ensures r.Some? <==> LeadingDigits(Unsigned(Text.TrimStart(s))) != []
  {
    ParseSigned(Text.TrimStart(s))
  }

  /** `parseInt` once the white space is gone. */
  function ParseSigned(t: string): (r: Option<int>)
    ensures r.Some? <==> LeadingDigits(Unsigned(t)) != []
  {
    var digits := LeadingDigits(Unsigned(t));
    if digits == [] then None
    else if t[0] == '-' then Some(0 - DigitsValue(digits))
    else Some(DigitsValue(digits))
  }

  /** `t` without one leading sign character. */
  function Unsigned(t: string): string {
    if t != [] && (t[0] == '-' || t[0] == '+') then t[1..] else t
  }

  lemma {:induction false} NatToStringValue(n: nat)
    ensures DigitsValue(NatToString(n)) == n
  {
    if n >= 10 {
      NatToStringValue(n / 10);
      var s := NatToString(n);
      assert s[..|s| - 1] == NatToString(n / 10);
    }
  }

  lemma {:induction false} LeadingDigitsOfDigits(ds: string, rest: string)
    requires AllDigits(ds)
    requires rest == [] || !IsDigit(rest[0])
    ensures LeadingDigits(ds + rest) == ds
  {
    if ds != [] {
      assert (ds + rest)[1..] == ds[1..] + rest;
      LeadingDigitsOfDigits(ds[1..], rest);
      assert [ds[0]] + ds[1..] == ds;
    } else {
      assert ds + rest == rest;
    }
  }

  lemma {:induction false} ParseSignedOfDigits(m: int, rest: string)
    requires m >= 0
    requires rest == [] || !IsDigit(rest[0])
    ensures ParseSigned(NatToString(m) + rest) == Some(m)
  {
    var digits := NatToString(m);
    NatToStringValue(m);
    LeadingDigitsOfDigits(digits, rest);
    var t := digits + rest;
    assert t[0] == digits[0] && IsDigit(t[0]);
    assert Unsigned(t) == t;
  }

  lemma {:induction false} ParseSignedOfNegative(m: int, rest: string)
    requires m >= 0
    requires rest == [] || !IsDigit(rest[0])
    ensures ParseSigned("-" + (NatToString(m) + rest)) == Some(-m)
  {
    var digits := NatToString(m);
    NatToStringValue(m);
    LeadingDigitsOfDigits(digits, rest);
    var u := "-" + (digits + rest);
    assert u[0] == '-' && u[1..] == digits + rest;
    assert Unsigned(u) == digits + rest;
  }

  /** `parseInt` reads back what `String(n)` wrote, past leading white space
      and up to the first character that is not a digit. */
  lemma {:induction false} ParseIntPrefixOfInt(ws: string, n: int, rest: string)
    requires Text.AllSpace(ws)
    requires rest == [] || !IsDigit(rest[0])
    ensures ParseIntPrefix(ws + (IntToString(n) + rest)) == Some(n)
  {
    var t := IntToString(n) + rest;
    if n < 0 {
      assert t == "-" + (NatToString(-n) + rest);
      ParseSignedOfNegative(-n, rest);
    } else {
      assert t == NatToString(n) + rest;
      ParseSignedOfDigits(n, rest);
    }
    assert ParseSigned(t) == Some(n);
    assert t[0] == '-' || IsDigit(t[0]);
    Text.TrimStartSkipsSpace(ws, t);
    assert ParseIntPrefix(ws + t) == ParseSigned(Text.TrimStart(ws + t));
  }

  /** Distinct integers are written differently. */
  lemma {:induction false} IntToStringInjective(a: int, b: int)
    requires IntToString(a) == IntToString(b)
    ensures a == b
  {
    ParseIntPrefixOfInt([], a, []);
    ParseIntPrefixOfInt([], b, []);
    assert [] + (IntToString(a) + []) == IntToString(a);
    assert [] + (IntToString(b) + []) == IntToString(b);
  }
}
