/**
 * String helpers shared by the catalog: the decimal rendering of a natural
 * number (Python's `str` of a non-negative integer or an integral Decimal),
 * `str.join`, and the code-point order in which names are compared.
 */
module Text {

  predicate IsDigit(c: char) {
    '0' <= c <= '9'
  }

  function DigitChar(d: nat): (c: char)
    requires d < 10
    ensures IsDigit(c) && c as int - '0' as int == d
  {
    "0123456789"[d]
  }

  function DigitValue(c: char): nat
    requires IsDigit(c)
  {
    c as int - '0' as int
  }

  /** The decimal digits of `n`, most significant first, without sign or leading zeros. */
  function DecimalString(n: nat): (s: string)
    ensures 1 <= |s|
    ensures forall i :: 0 <= i < |s| ==> IsDigit(s[i])
    ensures |s| == 1 <==> n < 10
    ensures s[0] == '0' ==> n == 0
    decreases n
  {
    if n < 10 then [DigitChar(n)] else DecimalString(n / 10) + [DigitChar(n % 10)]
  }

  /** Reads a run of decimal digits back as a number; the inverse of DecimalString. */
  function ParseDecimal(s: string): nat
    requires forall i :: 0 <= i < |s| ==> IsDigit(s[i])
  {
    if |s| == 0 then 0 else ParseDecimal(s[..|s| - 1]) * 10 + DigitValue(s[|s| - 1])
  }

  lemma {:induction false} ParseDecimalRoundTrip(n: nat)
    ensures ParseDecimal(DecimalString(n)) == n
    decreases n
  {
    var s := DecimalString(n);
    if n >= 10 {
      ParseDecimalRoundTrip(n / 10);
      assert s[..|s| - 1] == DecimalString(n / 10);
    }
  }

  /** Two numbers with the same decimal rendering are equal. */
  lemma DecimalStringInjective(m: nat, n: nat)
    requires DecimalString(m) == DecimalString(n)
    ensures m == n
  {
    ParseDecimalRoundTrip(m);
    ParseDecimalRoundTrip(n);
  }

  /** Python's `sep.join(parts)`. */
  function Join(sep: string, parts: seq<string>): string
  {
    if |parts| == 0 then ""
    else if |parts| == 1 then parts[0]
    else parts[0] + sep + Join(sep, parts[1..])
  }

  /** `s` begins with `prefix`. */
  predicate StartsWith(s: string, prefix: string) {
    |prefix| <= |s| && s[..|prefix|] == prefix
  }

  /** `s` ends with `suffix`. */
  predicate EndsWith(s: string, suffix: string) {
    |suffix| <= |s| && s[|s| - |suffix|..] == suffix
  }

  /**
   * Lexicographic order on code points: a proper prefix comes first. This is
   * how SQLite's default BINARY collation compares names; another database
   * engine may collate by locale instead.
   */
  predicate StrLe(a: string, b: string)
  {
    if |a| == 0 then true
    else if |b| == 0 then false
    else if a[0] != b[0] then a[0] < b[0]
    else StrLe(a[1..], b[1..])
  }

  lemma {:induction false} StrLeTotal(a: string, b: string)
    ensures StrLe(a, b) || StrLe(b, a)
  {
    if |a| > 0 && |b| > 0 && a[0] == b[0] {
      StrLeTotal(a[1..], b[1..]);
    }
  }

  lemma {:induction false} StrLeTransitive(a: string, b: string, c: string)
    requires StrLe(a, b) && StrLe(b, c)
    ensures StrLe(a, c)
  {
    if |a| > 0 && |b| > 0 && |c| > 0 && a[0] == b[0] == c[0] {
      StrLeTransitive(a[1..], b[1..], c[1..]);
    }
  }

  lemma {:induction false} StrLeAntisymmetric(a: string, b: string)
    requires StrLe(a, b) && StrLe(b, a)
    ensures a == b
  {
    if |a| > 0 && |b| > 0 {
      StrLeAntisymmetric(a[1..], b[1..]);
      assert a == [a[0]] + a[1..];
      assert b == [b[0]] + b[1..];
    }
  }

  /** The length of the run of digits that `s` starts with. */
  function DigitRun(s: string): (k: nat)
    ensures k <= |s|
    ensures forall i :: 0 <= i < k ==> IsDigit(s[i])
    ensures k < |s| ==> !IsDigit(s[k])
  {
    if |s| == 0 || !IsDigit(s[0]) then 0 else 1 + DigitRun(s[1..])
  }

  /** The digit run of a rendered number ends where the number does. */
  lemma DigitRunOfDecimal(n: nat, rest: string)
    requires |rest| == 0 || !IsDigit(rest[0])
    ensures DigitRun(DecimalString(n) + rest) == |DecimalString(n)|
  {
    var d := DecimalString(n);
    assert forall i :: 0 <= i < |d| ==> (d + rest)[i] == d[i];
    assert |d| < |d + rest| ==> (d + rest)[|d|] == rest[0];
  }

  /** Splits a leading number off `s`: its value and the text after its digits. */
  function ParseAmount(s: string): (r: (nat, string))
    requires 0 < DigitRun(s)
  {
    var k := DigitRun(s);
    (ParseDecimal(s[..k]), s[k..])
  }

  lemma ParseAmountOf(n: nat, rest: string)
    requires |rest| == 0 || !IsDigit(rest[0])
    ensures 0 < DigitRun(DecimalString(n) + rest)
    ensures ParseAmount(DecimalString(n) + rest) == (n, rest)
  {
    var d := DecimalString(n);
    DigitRunOfDecimal(n, rest);
    assert (d + rest)[..|d|] == d;
    assert (d + rest)[|d|..] == rest;
    ParseDecimalRoundTrip(n);
  }
}
