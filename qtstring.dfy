/**
 * The handful of QString operations the modelled code relies on:
 * upper/lower case conversion, case-insensitive endsWith, chop and
 * toLongLong. Case mapping is modelled for ASCII letters only.
 */
module QtString {

  /** QChar::toUpper on ASCII letters; every other character is kept. */
  function UpperChar(c: char): char {
    if 'a' <= c <= 'z' then (c as int - 32) as char else c
  }

  /** QChar::toLower on ASCII letters; every other character is kept. */
  function LowerChar(c: char): char {
    if 'A' <= c <= 'Z' then (c as int + 32) as char else c
  }

  /** QString::toUpper: same length, no lower-case ASCII letter left. */
  function ToUpper(s: string): (r: string)
    ensures |r| == |s|
    ensures forall i :: 0 <= i < |r| ==> !('a' <= r[i] <= 'z')
  {
    seq(|s|, i requires 0 <= i < |s| => UpperChar(s[i]))
  }

  /** QString::toLower: same length, no upper-case ASCII letter left. */
  function ToLower(s: string): (r: string)
    ensures |r| == |s|
    ensures forall i :: 0 <= i < |r| ==> !('A' <= r[i] <= 'Z')
  {
    seq(|s|, i requires 0 <= i < |s| => LowerChar(s[i]))
  }

  /** Lower-casing distributes over concatenation. */
  lemma LowerAppend(a: string, b: string)
    ensures ToLower(a + b) == ToLower(a) + ToLower(b)
  {
  }

  /** Upper-casing a lower-cased string gives the same as upper-casing the original. */
  lemma UpperOfLower(s: string)
    ensures ToUpper(ToLower(s)) == ToUpper(s)
  {
  }

  /** QString::endsWith(suffix, Qt::CaseInsensitive): an exact suffix always matches. */
  predicate EndsWithCI(text: string, suffix: string)
    ensures EndsWithCI(text, suffix) ==> |suffix| <= |text|
    ensures |suffix| <= |text| && text[|text| - |suffix|..] == suffix ==> EndsWithCI(text, suffix)
  {
    |suffix| <= |text| && ToLower(text[|text| - |suffix|..]) == ToLower(suffix)
  }

  /** Upper-casing the text does not change whether it ends with a suffix, ignoring case. */
  lemma EndsWithCIIgnoresCase(text: string, suffix: string)
    ensures EndsWithCI(ToUpper(text), suffix) == EndsWithCI(text, suffix)
  {
  }

  /** QString::chop(n): removes n characters from the end, or everything when n exceeds the length. */
  function Chop(s: string, n: nat): (r: string)
    ensures r <= s
    ensures |r| == if n <= |s| then |s| - n else 0
  {
    if n <= |s| then s[..|s| - n] else []
  }

  // ---- QString::toLongLong (base 10) ----

  const Int64Min: int := -0x8000_0000_0000_0000
  const Int64Max: int := 0x7FFF_FFFF_FFFF_FFFF

  /** The white-space characters the C-locale number parser skips (ASCII only). */
  predicate IsSpace(c: char) {
    c == ' ' || ('\t' <= c <= '\r')
  }

  function TrimStart(s: string): string {
    if |s| > 0 && IsSpace(s[0]) then TrimStart(s[1..]) else s
  }

  function TrimEnd(s: string): string {
    if |s| > 0 && IsSpace(s[|s| - 1]) then TrimEnd(s[..|s| - 1]) else s
  }

  predicate IsDigit(c: char) {
    '0' <= c <= '9'
  }

  predicate AllDigits(s: string) {
    forall i :: 0 <= i < |s| ==> IsDigit(s[i])
  }

  /** The value of a string of decimal digits, most significant first. */
  function DigitsValue(s: string): nat
    requires AllDigits(s)
  {
    if |s| == 0 then 0 else 10 * DigitsValue(s[..|s| - 1]) + (s[|s| - 1] as int - '0' as int)
  }

  /**
   * QString::toLongLong(): surrounding white space is skipped, an optional
   * sign and at least one decimal digit must follow; anything else, or a
   * value outside the 64-bit range, gives 0.
   */
  function ToLongLong(s: string): (r: int)
    ensures Int64Min <= r <= Int64Max
    ensures AllDigits(s) && 0 < |s| && DigitsValue(s) <= Int64Max ==> r == DigitsValue(s)
  {
    var t := TrimEnd(TrimStart(s));
    var negative := |t| > 0 && t[0] == '-';
    var digits := if |t| > 0 && (t[0] == '-' || t[0] == '+') then t[1..] else t;
    if |digits| == 0 || !AllDigits(digits) then 0
    else
      var v := if negative then 0 - DigitsValue(digits) as int else DigitsValue(digits) as int;
      if Int64Min <= v <= Int64Max then v else 0
  }

  // ---- QString::number (base 10) ----

  function DigitChar(d: nat): char
    requires d < 10
  {
    ('0' as int + d) as char
  }

  /** The decimal digits of n, most significant first, without leading zeros. */
  function DecimalDigits(n: nat): string {
    if n < 10 then [DigitChar(n)] else DecimalDigits(n / 10) + [DigitChar(n % 10)]
  }

  /** QString::number(n). */
  function DecimalString(n: int): string {
    if n < 0 then "-" + DecimalDigits(-n) else DecimalDigits(n)
  }

  lemma {:induction false} DecimalDigitsValue(n: nat)
    ensures |DecimalDigits(n)| > 0 && AllDigits(DecimalDigits(n))
    ensures DigitsValue(DecimalDigits(n)) == n
  {
    if n >= 10 {
      DecimalDigitsValue(n / 10);
      var s := DecimalDigits(n);
      assert s[..|s| - 1] == DecimalDigits(n / 10);
    }
  }

  /** Every 64-bit integer survives QString::number followed by toLongLong. */
  lemma {:induction false} ToLongLongRoundTrip(n: int)
    requires Int64Min <= n <= Int64Max
    ensures ToLongLong(DecimalString(n)) == n
  {
    var s := DecimalString(n);
    var m := if n < 0 then -n else n;
    DecimalDigitsValue(m);
    var ds := DecimalDigits(m);
    assert s[|s| - 1] == ds[|ds| - 1];
    assert IsDigit(ds[|ds| - 1]);
    assert TrimStart(s) == s;
    assert TrimEnd(s) == s;
    if n < 0 {
      assert s[1..] == ds;
    } else {
      assert IsDigit(s[0]);
    }
  }
}
