/**
 * The JavaScript string operations the front end relies on, over `string` = `seq<char>`:
 * `trim` (for the "empty after trim" checks), `toLowerCase` and `includes` (for the search),
 * the decimal rendering of a number in a template literal, and `a || b` on strings.
 */
module Text {

  /** The characters `String.prototype.trim` removes: ECMAScript WhiteSpace and LineTerminator. */
  predicate IsWhitespace(c: char) {
    || c == '\t' || c == '\n' || c == '\U{B}' || c == '\U{C}' || c == '\r' || c == ' '
    || c == '\U{A0}' || c == '\U{1680}' || ('\U{2000}' <= c <= '\U{200A}')
    || c == '\U{2028}' || c == '\U{2029}' || c == '\U{202F}' || c == '\U{205F}'
    || c == '\U{3000}' || c == '\U{FEFF}'
  }

  /** The first position at or after `k` that is not whitespace, or `|s|`: everything skipped is whitespace. */
  function SkipBlanks(s: string, k: nat): (j: nat)
    requires k <= |s|
    ensures k <= j <= |s|
    ensures forall i :: k <= i < j ==> IsWhitespace(s[i])
    ensures j < |s| ==> !IsWhitespace(s[j])
    decreases |s| - k
  {
    if k < |s| && IsWhitespace(s[k]) then SkipBlanks(s, k + 1) else k
  }

  /**
   * Going back from `k` but not past `a`, the end of the last character that is not whitespace, or
   * `a`: everything skipped is whitespace.
   */
  function SkipBlanksBack(s: string, a: nat, k: nat): (j: nat)
    requires a <= k <= |s|
    ensures a <= j <= k
    ensures forall i :: j <= i < k ==> IsWhitespace(s[i])
    ensures a < j ==> !IsWhitespace(s[j - 1])
  {
    if a < k && IsWhitespace(s[k - 1]) then SkipBlanksBack(s, a, k - 1) else k
  }

  /**
   * `s.trim()`: the result is the slice of the input left after dropping whitespace at both ends,
   * and neither of its ends is whitespace.
   */
  function Trim(s: string): (r: string)
    ensures |r| <= |s|
    ensures exists a, b :: && 0 <= a <= b <= |s| && r == s[a..b]
                          && (forall i :: 0 <= i < a ==> IsWhitespace(s[i]))
                          && (forall i :: b <= i < |s| ==> IsWhitespace(s[i]))
    ensures r != [] ==> !IsWhitespace(r[0]) && !IsWhitespace(r[|r| - 1])
  {
    var a := SkipBlanks(s, 0);
    var b := SkipBlanksBack(s, a, |s|);
    s[a..b]
  }

  /** `!s.trim()`, the check every create form runs on its title or content. */
  predicate Blank(s: string) {
    Trim(s) == ""
  }

  /** A string is blank exactly when every one of its characters is whitespace. */
  lemma BlankIffAllWhitespace(s: string)
    ensures Blank(s) <==> forall i :: 0 <= i < |s| ==> IsWhitespace(s[i])
  {
  }

  /** Upper-case letters of the scripts the forum's data uses: Latin A-Z and Cyrillic U+0400-U+042F. */
  predicate IsUpper(c: char) {
    ('A' <= c <= 'Z') || ('\U{400}' <= c <= '\U{42F}')
  }

  /** The lower-case letter of one character; everything that is not an upper-case letter stays. */
  function LowerChar(c: char): (d: char)
    ensures !IsUpper(d)
    ensures !IsUpper(c) ==> d == c
  {
    if ('A' <= c <= 'Z') || ('\U{410}' <= c <= '\U{42F}') then (c as int + 32) as char
    else if '\U{400}' <= c <= '\U{40F}' then (c as int + 80) as char
    else c
  }

  /** `s.toLowerCase()`, character by character. */
  function Lower(s: string): (r: string)
    ensures |r| == |s|
  {
    seq(|s|, i requires 0 <= i < |s| => LowerChar(s[i]))
  }

  /** Lower-casing leaves no upper-case letter and changes no other character. */
  lemma LowerCases(s: string)
    ensures forall i :: 0 <= i < |s| ==> !IsUpper(Lower(s)[i])
    ensures forall i :: 0 <= i < |s| && !IsUpper(s[i]) ==> Lower(s)[i] == s[i]
  {
    forall i | 0 <= i < |s| ensures !IsUpper(Lower(s)[i]) && (!IsUpper(s[i]) ==> Lower(s)[i] == s[i]) {
      assert Lower(s)[i] == LowerChar(s[i]);
    }
  }

  /** `hay.includes(needle)`: `needle` is a prefix of some suffix of `hay`. */
  predicate Contains(hay: string, needle: string) {
    needle <= hay || (hay != [] && Contains(hay[1..], needle))
  }

  /** An occurrence of `needle` at position `k` makes `includes` hold. */
  lemma {:induction false} ContainsAt(hay: string, needle: string, k: nat)
    requires k <= |hay| && needle <= hay[k..]
    ensures Contains(hay, needle)
  {
    if k > 0 {
      assert hay[1..][k - 1..] == hay[k..];
      ContainsAt(hay[1..], needle, k - 1);
    }
  }

  /** When `includes` holds, `needle` occurs at some position of `hay`. */
  lemma {:induction false} ContainsWitness(hay: string, needle: string) returns (k: nat)
    requires Contains(hay, needle)
    ensures k <= |hay| && needle <= hay[k..]
  {
    if needle <= hay {
      k := 0;
    } else {
      var j := ContainsWitness(hay[1..], needle);
      assert hay[1..][j..] == hay[j + 1..];
      k := j + 1;
    }
  }

  /** `includes` holds exactly when `needle` occurs at some position of `hay`. */
  lemma ContainsIff(hay: string, needle: string)
    ensures Contains(hay, needle) <==> exists k :: 0 <= k <= |hay| && needle <= hay[k..]
  {
    if Contains(hay, needle) {
      var k := ContainsWitness(hay, needle);
    }
    if exists k :: 0 <= k <= |hay| && needle <= hay[k..] {
      var k :| 0 <= k <= |hay| && needle <= hay[k..];
      ContainsAt(hay, needle, k);
    }
  }

  /** The character that stands for the decimal digit `d`. */
  function DigitChar(d: nat): (c: char)
    requires d < 10
    ensures '0' <= c <= '9'
  {
    ('0' as int + d) as char
  }

  /** The decimal text of a number, as a template literal `${n}` renders it. */
  function Decimal(n: nat): (r: string)
    ensures |r| > 0
    ensures forall i :: 0 <= i < |r| ==> '0' <= r[i] <= '9'
    ensures r[0] == '0' ==> r == "0"
  {
    if n < 10 then [DigitChar(n)] else Decimal(n / 10) + [DigitChar(n % 10)]
  }

  /** The number a string of decimal digits denotes: the inverse of `Decimal`. */
  function DigitsValue(s: string): nat
    requires forall i :: 0 <= i < |s| ==> '0' <= s[i] <= '9'
  {
    if s == [] then 0 else DigitsValue(s[..|s| - 1]) * 10 + (s[|s| - 1] as int - '0' as int)
  }

  /** Reading back the decimal text of a number gives that number. */
  lemma {:induction false} DecimalRoundTrip(n: nat)
    ensures DigitsValue(Decimal(n)) == n
  {
    if n >= 10 {
      var r := Decimal(n);
      assert r[..|r| - 1] == Decimal(n / 10);
      DecimalRoundTrip(n / 10);
    }
  }

  /** `s || fallback` on strings: the empty string is falsy. */
  function OrElse(s: string, fallback: string): (r: string)
    ensures r == s || r == fallback
    ensures r == "" ==> s == "" && fallback == ""
    ensures s != "" ==> r == s
  {
    if s != "" then s else fallback
  }

  /**
   * JavaScript's `.length` of a string: UTF-16 code units, two for each character outside the
   * Basic Multilingual Plane. It is never less than the number of characters.
   */
  function Utf16Length(s: string): (n: nat)
    ensures |s| <= n <= 2 * |s|
    ensures (forall i :: 0 <= i < |s| ==> s[i] as int <= 0xFFFF) ==> n == |s|
  {
    if s == [] then 0 else (if s[0] as int > 0xFFFF then 2 else 1) + Utf16Length(s[1..])
  }
}
