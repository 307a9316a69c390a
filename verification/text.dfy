/** Character classes and string operations used by the validators and the
    department search, as JavaScript's regular expressions and `String`
    methods define them. A `char` is one Unicode scalar value. */
module Text {

  /** JavaScript's `\s`: the ECMAScript WhiteSpace and LineTerminator code
      points (tab, line feed, vertical tab, form feed, carriage return, the
      space separators of category Zs, U+2028, U+2029 and U+FEFF). */
  predicate IsWhitespace(c: char) {
    var n := c as int;
    || (0x09 <= n <= 0x0D)
    || n == 0x20 || n == 0xA0 || n == 0x1680
    || (0x2000 <= n <= 0x200A)
    || n == 0x2028 || n == 0x2029 || n == 0x202F || n == 0x205F
    || n == 0x3000 || n == 0xFEFF
  }

  predicate IsAsciiUpper(c: char) { 'A' <= c <= 'Z' }
  predicate IsAsciiLower(c: char) { 'a' <= c <= 'z' }
  predicate IsAsciiDigit(c: char) { '0' <= c <= '9' }

  /** The members of the character class `[!@#$%^&*(),.?":{}|<>]`. */
  const SpecialChars: string := "!@#$%^&*(),.?\":{}|<>"

  /** The regular-expression character classes the password rules test. */
  datatype CharClass = Upper | Lower | Digit | Special | Space

  predicate InClass(c: char, k: CharClass) {
    match k
    case Upper => IsAsciiUpper(c)
    case Lower => IsAsciiLower(c)
    case Digit => IsAsciiDigit(c)
    case Special => c in SpecialChars
    case Space => IsWhitespace(c)
  }

  /** `/[k]/.test(s)`: an unanchored one-character pattern finds a match. */
  predicate ContainsClass(s: string, k: CharClass) {
    exists i | 0 <= i < |s| :: InClass(s[i], k)
  }

  /** `s.trim() === ''`: trimming removes exactly the `\s` code points. */
  predicate IsBlank(s: string) {
    forall i | 0 <= i < |s| :: IsWhitespace(s[i])
  }

  /** `toLowerCase` on one character, for the ASCII letters. */
  function LowerCaseChar(c: char): (r: char)
    ensures IsAsciiUpper(c) ==> IsAsciiLower(r) && r as int == c as int + 32
    ensures !IsAsciiUpper(c) ==> r == c
  {
    if IsAsciiUpper(c) then (c as int + 32) as char else c
  }

  function LowerCase(s: string): (r: string)
    ensures |r| == |s|
    ensures forall i | 0 <= i < |s| :: r[i] == LowerCaseChar(s[i])
  {
    seq(|s|, i requires 0 <= i < |s| => LowerCaseChar(s[i]))
  }

  /** `s.replace(/from/g, to)` for a one-character pattern. */
  function ReplaceAll(s: string, from: char, to: char): (r: string)
    ensures |r| == |s|
    ensures forall i | 0 <= i < |s| :: r[i] == (if s[i] == from then to else s[i])
  {
    seq(|s|, i requires 0 <= i < |s| => if s[i] == from then to else s[i])
  }

  /** `s.includes(q)`: `q` occurs in `s` as a contiguous substring. */
  predicate Includes(s: string, q: string) {
    exists i | 0 <= i <= |s| - |q| :: OccursAt(s, q, i)
  }

  /** `q` is spelled out in `s` starting at position `i`. */
  predicate OccursAt(s: string, q: string, i: int)
    requires 0 <= i <= |s| - |q|
  {
    s[i..i + |q|] == q
  }

  lemma IncludesEmpty(s: string)
    ensures Includes(s, "")
  {
    assert OccursAt(s, "", 0);
  }

  /** A character of the query that never occurs in the text rules out a match. */
  lemma {:induction false} MissingCharExcludes(s: string, q: string, c: char)
    requires c in q && c !in s
    ensures !Includes(s, q)
  {
    var k :| 0 <= k < |q| && q[k] == c;
    forall i | 0 <= i <= |s| - |q|
      ensures !OccursAt(s, q, i)
    {
      assert s[i..i + |q|][k] == s[i + k];
    }
  }

  /** `String(n)` for a natural number: its shortest decimal spelling, so
      only zero itself starts with '0'. */
  function Decimal(n: nat): (r: string)
    ensures |r| >= 1
    ensures forall i | 0 <= i < |r| :: IsAsciiDigit(r[i])
    ensures r[0] == '0' <==> n == 0
    ensures |r| == 1 || r[0] != '0'
    decreases n
  {
    var d := ('0' as int + n % 10) as char;
    if n < 10 then [d] else Decimal(n / 10) + [d]
  }

  /** The number a string of decimal digits denotes. */
  function DecimalValue(s: string): nat
    requires forall i | 0 <= i < |s| :: IsAsciiDigit(s[i])
    decreases |s|
  {
    if |s| == 0 then 0
    else
      assert IsAsciiDigit(s[|s| - 1]);
      DecimalValue(s[..|s| - 1]) * 10 + (s[|s| - 1] as int - '0' as int)
  }

  /** Reading back the spelling of `n` gives `n`. */
  lemma {:induction false} DecimalRoundTrip(n: nat)
    ensures DecimalValue(Decimal(n)) == n
    decreases n
  {
    var r := Decimal(n);
    if n >= 10 {
      DecimalRoundTrip(n / 10);
      assert r[..|r| - 1] == Decimal(n / 10);
    }
  }
}
