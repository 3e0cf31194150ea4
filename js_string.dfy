/**
 * The JavaScript string built-ins the application relies on:
 * `toLowerCase`, `toUpperCase`, `includes`, the `\s` character class and
 * `Number.prototype.toString(radix)` on non-negative integers.
 * Case mapping is modelled on ASCII letters only.
 */
module JsString {

  predicate IsAsciiUpper(c: char) { 'A' <= c <= 'Z' }

  predicate IsAsciiLower(c: char) { 'a' <= c <= 'z' }

  predicate IsDigit(c: char) { '0' <= c <= '9' }

  /** Membership in the `\s` class of JavaScript regular expressions (and of `String.prototype.trim`). */
  predicate IsWhitespace(c: char) {
    c == '\t' || c == '\n' || c == '\U{B}' || c == '\U{C}' || c == '\r' || c == ' '
    || c == '\U{A0}' || c == '\U{1680}' || ('\U{2000}' <= c <= '\U{200A}')
    || c == '\U{2028}' || c == '\U{2029}' || c == '\U{202F}' || c == '\U{205F}'
    || c == '\U{3000}' || c == '\U{FEFF}'
  }

  function LowerChar(c: char): (d: char)
    ensures !IsAsciiUpper(d)
    ensures !IsAsciiUpper(c) ==> d == c
  {
    if IsAsciiUpper(c) then (c as int + 32) as char else c
  }

  function UpperChar(c: char): (d: char)
    ensures !IsAsciiLower(d)
    ensures !IsAsciiLower(c) ==> d == c
  {
    if IsAsciiLower(c) then (c as int - 32) as char else c
  }

  /** `s.toLowerCase()` */
  function ToLowerCase(s: string): (r: string)
    ensures |r| == |s|
    ensures forall i :: 0 <= i < |s| ==> r[i] == LowerChar(s[i])
  {
    seq(|s|, i requires 0 <= i < |s| => LowerChar(s[i]))
  }

  /** `s.toUpperCase()` */
  function ToUpperCase(s: string): (r: string)
    ensures |r| == |s|
    ensures forall i :: 0 <= i < |s| ==> r[i] == UpperChar(s[i])
  {
    seq(|s|, i requires 0 <= i < |s| => UpperChar(s[i]))
  }

  predicate OccursAt(haystack: string, needle: string, i: int) {
    0 <= i && i + |needle| <= |haystack| && haystack[i..i + |needle|] == needle
  }

  /** `haystack.includes(needle)` */
  predicate Includes(haystack: string, needle: string) {
    exists i | 0 <= i <= |haystack| - |needle| :: OccursAt(haystack, needle, i)
  }

  lemma EmptyIsIncluded(haystack: string)
    ensures Includes(haystack, "")
  {
    assert OccursAt(haystack, "", 0);
  }

  function Clamp(i: int, n: nat): (k: nat)
    ensures k <= n
  {
    if i < 0 then 0 else if i > n then n else i
  }

  /** `s.substring(start, end)`: both bounds clamped to the string, swapped when `start > end`. */
  function Substring(s: string, start: int, end: int): (r: string)
    ensures |r| <= |s|
    ensures 0 <= start <= end <= |s| ==> r == s[start..end]
  {
    var a, b := Clamp(start, |s|), Clamp(end, |s|);
    if a <= b then s[a..b] else s[b..a]
  }

  /** The digit `d` as `toString(radix)` writes it: `0`-`9`, then lower-case `a`-`z`. */
  function DigitChar(d: nat): (c: char)
    requires d < 36
    ensures IsDigit(c) || IsAsciiLower(c)
  {
    if d < 10 then ('0' as int + d) as char else ('a' as int + d - 10) as char
  }

  /** The value of a digit character as `parseInt` reads it, in either case; 36 for a non-digit. */
  function DigitValue(c: char): (d: nat)
    ensures d <= 36
  {
    if IsDigit(c) then c as int - '0' as int
    else if IsAsciiLower(c) then c as int - 'a' as int + 10
    else if IsAsciiUpper(c) then c as int - 'A' as int + 10
    else 36
  }

  lemma DigitValueOfDigitChar(d: nat)
    requires d < 36
    ensures DigitValue(DigitChar(d)) == d
    ensures DigitValue(UpperChar(DigitChar(d))) == d
  {
  }

  /** `n.toString(radix)` for a non-negative integer `n`: its digits, most significant first, no leading zero. */
  function NumberToString(n: nat, radix: nat): (r: string)
    requires 2 <= radix <= 36
    ensures |r| >= 1
    ensures forall i :: 0 <= i < |r| ==> DigitValue(r[i]) < radix
    ensures |r| > 1 ==> r[0] != '0'
    decreases n
  {
    if n < radix then [DigitChar(n)]
    else
      DivMod(n, radix);
      NumberToString(n / radix, radix) + [DigitChar(n % radix)]
  }

  lemma DivMod(n: nat, radix: nat)
    requires 2 <= radix <= n
    ensures 1 <= n / radix < n
    ensures n % radix < radix
    ensures n == (n / radix) * radix + n % radix
  {
  }

  /**
   * The value of a string of digits in `radix`, as `parseInt(s, radix)` reads the
   * digits `NumberToString` writes. Unlike `parseInt`, it does not stop at an
   * invalid character; it is only applied to strings of valid digits.
   */
  function ParseDigits(s: string, radix: nat): (n: nat)
    requires 2 <= radix <= 36
  {
    if s == [] then 0
    else ParseDigits(s[..|s| - 1], radix) * radix + (DigitValue(s[|s| - 1]) % 36)
  }

  /** Reading back what `toString(radix)` wrote gives the number again. */
  lemma {:induction false} ParseNumberToString(n: nat, radix: nat)
    requires 2 <= radix <= 36
    ensures ParseDigits(NumberToString(n, radix), radix) == n
    decreases n
  {
    var s := NumberToString(n, radix);
    if n < radix {
      DigitValueOfDigitChar(n);
      assert s[..|s| - 1] == [];
    } else {
      DivMod(n, radix);
      ParseNumberToString(n / radix, radix);
      DigitValueOfDigitChar(n % radix);
      assert s[..|s| - 1] == NumberToString(n / radix, radix);
    }
  }

  /** Upper-casing the digits does not change what they denote. */
  lemma {:induction false} ParseUpperCase(s: string, radix: nat)
    requires 2 <= radix <= 36
    ensures ParseDigits(ToUpperCase(s), radix) == ParseDigits(s, radix)
    decreases |s|
  {
    if s != [] {
      var u := ToUpperCase(s);
      assert u[..|u| - 1] == ToUpperCase(s[..|s| - 1]);
      ParseUpperCase(s[..|s| - 1], radix);
      var c := s[|s| - 1];
      assert DigitValue(UpperChar(c)) % 36 == DigitValue(c) % 36;
    }
  }
}
