/**
 * The PHP string primitives the generator relies on: `strtolower` and
 * `strtoupper`, which fold the ASCII letters only and leave every other
 * character as it is, and the conversion of an integer to its decimal
 * string that PHP applies when an `int` is passed where a `string` is
 * expected.
 */
module PhpStrings {

  type byte = b: int | 0 <= b < 256

  /** A PHP string as `strlen` sees it: a sequence of bytes. */
  type Bytes = seq<byte>

  /** The characters of a byte string, one per byte. */
  function ByteChars(b: Bytes): (s: string)
    ensures |s| == |b| && forall i :: 0 <= i < |b| ==> s[i] as int == b[i]
  {
    seq(|b|, i requires 0 <= i < |b| => b[i] as char)
  }

  /** PHP's `empty()` of a string: only `""` and `"0"` are empty. */
  predicate IsEmptyString(s: string) {
    s == "" || s == "0"
  }

  predicate IsUpper(c: char) {
    'A' <= c <= 'Z'
  }

  predicate IsLower(c: char) {
    'a' <= c <= 'z'
  }

  function CharToLower(c: char): char {
    if IsUpper(c) then (c as int + 32) as char else c
  }

  function CharToUpper(c: char): char {
    if IsLower(c) then (c as int - 32) as char else c
  }

  /** `strtolower`: every ASCII capital becomes its small letter, nothing else changes. */
  function ToLower(s: string): (r: string)
    ensures |r| == |s|
    ensures forall i :: 0 <= i < |s| ==> r[i] == CharToLower(s[i])
  {
    seq(|s|, i requires 0 <= i < |s| => CharToLower(s[i]))
  }

  /** `strtoupper`: every ASCII small letter becomes its capital, nothing else changes. */
  function ToUpper(s: string): (r: string)
    ensures |r| == |s|
    ensures forall i :: 0 <= i < |s| ==> r[i] == CharToUpper(s[i])
  {
    seq(|s|, i requires 0 <= i < |s| => CharToUpper(s[i]))
  }

  /** `s` spells `t` in some mix of letter cases. */
  ghost predicate SameIgnoringCase(s: string, t: string) {
    |s| == |t| && forall i :: 0 <= i < |s| ==> CharToLower(s[i]) == CharToLower(t[i])
  }

  lemma CharFoldsAgree(a: char, b: char)
    ensures CharToUpper(a) == CharToUpper(b) <==> CharToLower(a) == CharToLower(b)
  {
  }

  /** Lower-casing two strings makes them equal exactly when they differ only in letter case. */
  lemma ToLowerEqualIff(s: string, t: string)
    ensures ToLower(s) == ToLower(t) <==> SameIgnoringCase(s, t)
  {
  }

  /** Upper-casing two strings makes them equal exactly when they differ only in letter case. */
  lemma ToUpperEqualIff(s: string, t: string)
    ensures ToUpper(s) == ToUpper(t) <==> SameIgnoringCase(s, t)
  {
    forall i | 0 <= i < |s| && i < |t|
      ensures CharToUpper(s[i]) == CharToUpper(t[i]) <==> CharToLower(s[i]) == CharToLower(t[i])
    {
      CharFoldsAgree(s[i], t[i]);
    }
    if SameIgnoringCase(s, t) {
      assert forall i :: 0 <= i < |s| ==> ToUpper(s)[i] == ToUpper(t)[i];
    }
  }

  /** A string with no capital letter is its own lower-case form. */
  lemma ToLowerOfLower(s: string)
    requires forall i :: 0 <= i < |s| ==> !IsUpper(s[i])
    ensures ToLower(s) == s
  {
    assert forall i :: 0 <= i < |s| ==> ToLower(s)[i] == s[i];
  }

  /** A string with no small letter is its own upper-case form. */
  lemma ToUpperOfUpper(s: string)
    requires forall i :: 0 <= i < |s| ==> !IsLower(s[i])
    ensures ToUpper(s) == s
  {
    assert forall i :: 0 <= i < |s| ==> ToUpper(s)[i] == s[i];
  }

  predicate IsDecimalChar(c: char) {
    '0' <= c <= '9' || c == '-'
  }

  function DigitChar(d: nat): char
    requires d < 10
  {
    ('0' as int + d) as char
  }

  function DigitValue(c: char): int {
    c as int - '0' as int
  }

  /** The number a string of decimal digits denotes, most significant digit first. */
  function DigitsValue(s: string): nat
    requires forall i :: 0 <= i < |s| ==> '0' <= s[i] <= '9'
  {
    if s == [] then 0 else DigitsValue(s[..|s| - 1]) * 10 + DigitValue(s[|s| - 1])
  }

  /** The integer an optionally negative decimal string denotes. */
  function DecimalValue(s: string): int
    requires |s| >= 1 && IsDecimalChar(s[0])
    requires forall i :: 1 <= i < |s| ==> '0' <= s[i] <= '9'
  {
    if s[0] == '-' then -(DigitsValue(s[1..]) as int) else DigitsValue(s)
  }

  /** The decimal digits of `n`, most significant first, without leading zeros. */
  function Digits(n: nat): (r: string)
    ensures |r| >= 1
    ensures forall i :: 0 <= i < |r| ==> '0' <= r[i] <= '9'
    ensures (r[0] == '0') <==> n == 0
    ensures r[0] == '0' ==> r == "0"
    ensures DigitsValue(r) == n
  {
    if n < 10 then [DigitChar(n)]
    else
      var r := Digits(n / 10) + [DigitChar(n % 10)];
      assert r[..|r| - 1] == Digits(n / 10);
      r
  }

  /** PHP's `(string)$n` for an integer: its decimal form, which reads back as `n`. */
  function IntToString(n: int): (r: string)
    ensures |r| >= 1
    ensures IsDecimalChar(r[0]) && forall i :: 1 <= i < |r| ==> '0' <= r[i] <= '9'
    ensures (r[0] == '-') <==> n < 0
    ensures n >= 0 ==> (r[0] == '0' ==> r == "0")
    ensures n < 0 ==> |r| >= 2 && r[1] != '0'
    ensures DecimalValue(r) == n
  {
    if n < 0 then
      var r := "-" + Digits(-n);
      assert r[1..] == Digits(-n);
      r
    else Digits(n)
  }

  /** A decimal string contains no letter, so case folding leaves it alone. */
  lemma IntToStringHasNoLetters(n: int)
    ensures ToLower(IntToString(n)) == IntToString(n)
    ensures ToUpper(IntToString(n)) == IntToString(n)
  {
  }
}
