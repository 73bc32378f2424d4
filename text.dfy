/** Character and string helpers the samples rely on from .NET: the
    case-insensitive comparison behind every "exit" check, white-space
    detection, and the decimal rendering of an integer inside an
    interpolated string. */
module Text {

  /** Upper-casing restricted to ASCII letters; every other character maps to itself. */
  function UpperAscii(c: char): char {
    if 'a' <= c <= 'z' then (c as int - 32) as char else c
  }

  /** `string.Equals(a, b, ...IgnoreCase)` for ASCII case differences. */
  predicate EqualsIgnoreCase(a: string, b: string) {
    |a| == |b| && forall i :: 0 <= i < |a| ==> UpperAscii(a[i]) == UpperAscii(b[i])
  }

  /** The line that ends a chat loop. */
  predicate IsExitCommand(s: string) {
    EqualsIgnoreCase(s, "exit")
  }

  /** The exit word is recognised in exactly its sixteen upper/lower-case spellings. */
  lemma ExitCommandSpellings(s: string)
    ensures IsExitCommand(s) <==>
      |s| == 4 && s[0] in "eE" && s[1] in "xX" && s[2] in "iI" && s[3] in "tT"
  {
    if IsExitCommand(s) {
      assert UpperAscii(s[0]) == 'E' && UpperAscii(s[1]) == 'X';
      assert UpperAscii(s[2]) == 'I' && UpperAscii(s[3]) == 'T';
    }
  }

  /** `char.IsWhiteSpace`: the Unicode space separators, line and paragraph
      separators, and the control characters U+0009..U+000D, U+0085. */
  predicate IsWhiteSpace(c: char) {
    || c == ' '
    || '\U{0009}' <= c <= '\U{000D}'
    || c == '\U{0085}' || c == '\U{00A0}' || c == '\U{1680}'
    || '\U{2000}' <= c <= '\U{200A}'
    || c == '\U{2028}' || c == '\U{2029}' || c == '\U{202F}' || c == '\U{205F}' || c == '\U{3000}'
  }

  /** `string.IsNullOrWhiteSpace` on a non-null string: empty or white space only. */
  predicate IsBlank(s: string) {
    forall i :: 0 <= i < |s| ==> IsWhiteSpace(s[i])
  }

  /** Skipping blank lines before the exit test never swallows an "exit": every
      spelling of the exit word has a letter that is not white space. */
  lemma ExitIsNotBlank(s: string)
    ensures IsExitCommand(s) ==> !IsBlank(s)
  {
    if IsExitCommand(s) {
      ExitCommandSpellings(s);
      assert !IsWhiteSpace(s[0]);
    }
  }

  function DigitChar(d: nat): char
    requires d < 10
  {
    ('0' as int + d) as char
  }

  function DigitValue(c: char): nat
    requires '0' <= c <= '9'
  {
    c as int - '0' as int
  }

  predicate IsDigits(s: string) {
    forall i :: 0 <= i < |s| ==> '0' <= s[i] <= '9'
  }

  /** The decimal text of `n`, as a non-negative `int` is rendered inside an
      interpolated string (no sign, no separators, no leading zeros). */
  function NatToString(n: nat): (s: string)
    ensures IsDigits(s) && 1 <= |s|
    ensures n >= 10 <==> |s| >= 2
    decreases n
  {
    if n < 10 then [DigitChar(n)] else NatToString(n / 10) + [DigitChar(n % 10)]
  }

  /** The value of a string of decimal digits. */
  function DecimalValue(s: string): nat
    requires IsDigits(s)
  {
    if s == [] then 0 else 10 * DecimalValue(s[..|s| - 1]) + DigitValue(s[|s| - 1])
  }

  /** Reading the decimal text back gives the number. */
  lemma {:induction false} DecimalRoundTrip(n: nat)
    ensures DecimalValue(NatToString(n)) == n
  {
    var s := NatToString(n);
    if n >= 10 {
      assert s[..|s| - 1] == NatToString(n / 10);
      DecimalRoundTrip(n / 10);
    }
  }

  /** Distinct numbers have distinct decimal texts. */
  lemma NatToStringInjective(m: nat, n: nat)
    ensures NatToString(m) == NatToString(n) ==> m == n
  {
    DecimalRoundTrip(m);
    DecimalRoundTrip(n);
  }
}
