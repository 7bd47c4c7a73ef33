/** String helpers that the browser provides to the application: `String.prototype.trim`,
    `split(sep)[0]` and the decimal rendering of a non-negative integer (`Number.prototype.toString`). */
module Text {

  /** The code points that ECMAScript's `trim` removes (WhiteSpace and LineTerminator), as closed ranges. */
  const JsWhitespaceRanges: seq<(int, int)> := [
    (0x09, 0x0D), (0x20, 0x20), (0xA0, 0xA0), (0x1680, 0x1680), (0x2000, 0x200A),
    (0x2028, 0x2029), (0x202F, 0x202F), (0x205F, 0x205F), (0x3000, 0x3000), (0xFEFF, 0xFEFF)]

  predicate InRanges(ranges: seq<(int, int)>, n: int) {
    ranges != [] && (ranges[0].0 <= n <= ranges[0].1 || InRanges(ranges[1..], n))
  }

  predicate IsJsWhitespace(c: char) {
    InRanges(JsWhitespaceRanges, c as int)
  }

  /** Every character of `s` at an index in [lo, hi) is whitespace. */
  predicate BlankBetween(s: string, lo: int, hi: int)
    requires 0 <= lo && hi <= |s|
  {
    forall i :: lo <= i < hi ==> IsJsWhitespace(s[i])
  }

  predicate AllWhitespace(s: string) {
    BlankBetween(s, 0, |s|)
  }

  /** The first index at or after `i` that holds a non-blank character, or `|s|` if none does. */
  function SkipBlanks(s: string, i: nat): (k: nat)
    requires i <= |s|
    ensures i <= k <= |s| && BlankBetween(s, i, k)
    ensures k == |s| || !IsJsWhitespace(s[k])
    decreases |s| - i
  {
    if i < |s| && IsJsWhitespace(s[i]) then SkipBlanks(s, i + 1) else i
  }

  /** The end of the last non-blank character in [lo, j), or `lo` if there is none. */
  function SkipBlanksBack(s: string, lo: nat, j: nat): (k: nat)
    requires lo <= j <= |s|
    ensures lo <= k <= j && BlankBetween(s, k, j)
    ensures k == lo || !IsJsWhitespace(s[k - 1])
  {
    if lo < j && IsJsWhitespace(s[j - 1]) then SkipBlanksBack(s, lo, j - 1) else j
  }

  /** `s.trim()`: the contiguous slice of `s` between its leading and trailing whitespace.
      Everything before and after the slice is whitespace, and the slice starts and ends with a
      non-blank character, so it is empty exactly when `s` is all whitespace. */
  function Trim(s: string): (r: string)
    ensures var lead := SkipBlanks(s, 0);
      lead + |r| <= |s| && r == s[lead..lead + |r|] &&
      BlankBetween(s, 0, lead) && BlankBetween(s, lead + |r|, |s|)
    ensures r == [] || (!IsJsWhitespace(r[0]) && !IsJsWhitespace(r[|r| - 1]))
    ensures r == [] <==> AllWhitespace(s)
  {
    var lo := SkipBlanks(s, 0);
    var hi := SkipBlanksBack(s, lo, |s|);
    assert lo < |s| ==> lo < hi;
    s[lo..hi]
  }

  /** `s.split(sep)[0]`: the text before the first `sep`, or all of `s` when `sep` does not occur. */
  function BeforeFirst(s: string, sep: char): (r: string)
    ensures |r| <= |s| && r == s[..|r|]
    ensures sep !in r
    ensures |r| == |s| || s[|r|] == sep
  {
    if s == [] || s[0] == sep then [] else [s[0]] + BeforeFirst(s[1..], sep)
  }

  function Digit(d: nat): char
    requires d < 10
  {
    ('0' as int + d) as char
  }

  /** The number a string of decimal digits denotes, most significant digit first. */
  function NumeralValue(s: string): int {
    if s == [] then 0 else 10 * NumeralValue(s[..|s| - 1]) + (s[|s| - 1] as int - '0' as int)
  }

  /** `n.toString()` for a non-negative integer: the canonical decimal numeral of `n`. */
  function DecimalString(n: nat): (r: string)
    ensures NumeralValue(r) == n
    ensures |r| >= 1
    ensures forall i :: 0 <= i < |r| ==> '0' <= r[i] <= '9'
    ensures r[0] == '0' ==> r == "0"
  {
    if n < 10 then [Digit(n)] else DecimalString(n / 10) + [Digit(n % 10)]
  }

  /** Distinct numbers have distinct numerals: the numeral's value gives the number back. */
  lemma DecimalStringInjective(a: nat, b: nat)
    requires DecimalString(a) == DecimalString(b)
    ensures a == b
  {
  }
}
