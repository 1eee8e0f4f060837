/** JavaScript value semantics that the screens rely on: `undefined`/`null`
    values, string truthiness, `String.prototype.substring`, and the character
    classes that the screens' regular expressions use. Strings are sequences of
    Unicode scalar values; `CodeUnits` gives the UTF-16 length that JavaScript's
    `length` and a pattern's `.` (without the `u` flag) count. */
module Js {

  /** A value that may be `undefined` or `null` (None) or present (Some). */
  datatype Option<+T> = None | Some(value: T)

  /** JavaScript truthiness of a string-or-undefined value: only a present,
      non-empty string is truthy. */
  predicate Truthy(v: Option<string>) {
    v.Some? && v.value != ""
  }

  /** Clamp a substring argument into [0, n], as `substring` does. */
  function Clamp(x: int, n: nat): (r: nat)
    ensures r <= n
    ensures 0 <= x <= n ==> r == x
    ensures x < 0 ==> r == 0
    ensures x > n ==> r == n
  {
    if x < 0 then 0 else if x > n then n else x
  }

  /** `s.substring(start, end)`: both arguments are clamped into [0, |s|] and
      swapped when the first is the larger. */
  function Substring(s: string, start: int, end: int): (r: string)
    ensures |r| <= |s|
    ensures 0 <= start <= end <= |s| ==> r == s[start..end]
  {
    var a := Clamp(start, |s|);
    var b := Clamp(end, |s|);
    if a <= b then s[a..b] else s[b..a]
  }

  /** A character outside the Basic Multilingual Plane takes two UTF-16 code
      units (a surrogate pair); every other character takes one. */
  function CodeUnitsOf(c: char): (n: nat)
    ensures n == 1 || n == 2
    ensures n == 2 <==> c as int >= 0x10000
  {
    if c as int >= 0x10000 then 2 else 1
  }

  /** The UTF-16 length of a string: its JavaScript `length`, and the number
      of times `.` can match in it when no character is a line terminator. */
  function CodeUnits(s: string): (n: nat)
    ensures |s| <= n <= 2 * |s|
    ensures n == 0 <==> s == []
  {
    if s == [] then 0 else CodeUnitsOf(s[0]) + CodeUnits(s[1..])
  }

  // ---------------------------------------------------------------------
  // Character classes of the regular expressions
  // ---------------------------------------------------------------------

  /** `[0-9]`, which is also `\d` for a regular expression without the `u` flag. */
  predicate IsDigit(c: char) { '0' <= c <= '9' }

  predicate IsLower(c: char) { 'a' <= c <= 'z' }

  predicate IsUpper(c: char) { 'A' <= c <= 'Z' }

  /** `[a-zA-Z0-9_]` */
  predicate IsWordChar(c: char) { IsLower(c) || IsUpper(c) || IsDigit(c) || c == '_' }

  /** The characters that `.` does not match: LF, CR, LINE SEPARATOR and
      PARAGRAPH SEPARATOR. */
  predicate IsLineTerminator(c: char) {
    var n := c as int;
    n == 0x0A || n == 0x0D || n == 0x2028 || n == 0x2029
  }

  /** `\s`: the ECMAScript WhiteSpace and LineTerminator characters. */
  predicate IsWhitespace(c: char) {
    var n := c as int;
    n == 0x09 || n == 0x0A || n == 0x0B || n == 0x0C || n == 0x0D || n == 0x20 ||
    n == 0xA0 || n == 0x1680 || (0x2000 <= n <= 0x200A) ||
    n == 0x2028 || n == 0x2029 || n == 0x202F || n == 0x205F || n == 0x3000 || n == 0xFEFF
  }

  /** The character classes used by the screens' patterns. */
  datatype CharClass =
    | Lower           // [a-z]
    | Upper           // [A-Z]
    | Digit           // [0-9], \d
    | Word            // [a-zA-Z0-9_]
    | NonAlnum        // [^\da-zA-Z]
    | Space           // \s
    | LineTerminator  // what `.` refuses
    | Exactly(ch: char)

  predicate InClass(c: char, k: CharClass) {
    match k
    case Lower => IsLower(c)
    case Upper => IsUpper(c)
    case Digit => IsDigit(c)
    case Word => IsWordChar(c)
    case NonAlnum => !(IsDigit(c) || IsLower(c) || IsUpper(c))
    case Space => IsWhitespace(c)
    case LineTerminator => IsLineTerminator(c)
    case Exactly(ch) => c == ch
  }

  /** A left-to-right scan for a character of class `k`. */
  predicate Contains(s: string, k: CharClass) {
    s != [] && (InClass(s[0], k) || Contains(s[1..], k))
  }

  /** A left-to-right check that every character is of class `k`. */
  predicate All(s: string, k: CharClass) {
    s == [] || (InClass(s[0], k) && All(s[1..], k))
  }

  /** The scan finds a character exactly when one is there. */
  lemma {:induction false} ContainsIff(s: string, k: CharClass)
    ensures Contains(s, k) <==> exists i :: 0 <= i < |s| && InClass(s[i], k)
  {
    if s != [] {
      ContainsIff(s[1..], k);
      if Contains(s[1..], k) {
        var i :| 0 <= i < |s[1..]| && InClass(s[1..][i], k);
        assert InClass(s[i + 1], k);
      }
      if exists i :: 0 <= i < |s| && InClass(s[i], k) {
        var i :| 0 <= i < |s| && InClass(s[i], k);
        if i > 0 {
          assert InClass(s[1..][i - 1], k);
        }
      }
    }
  }

  /** The check holds exactly when every character is of the class. */
  lemma {:induction false} AllIff(s: string, k: CharClass)
    ensures All(s, k) <==> forall i :: 0 <= i < |s| ==> InClass(s[i], k)
  {
    if s != [] {
      AllIff(s[1..], k);
      if All(s, k) {
        forall i | 0 <= i < |s| ensures InClass(s[i], k) {
          if i > 0 {
            assert s[i] == s[1..][i - 1];
          }
        }
      }
      if forall i :: 0 <= i < |s| ==> InClass(s[i], k) {
        forall i | 0 <= i < |s[1..]| ensures InClass(s[1..][i], k) {
          assert s[1..][i] == s[i + 1];
        }
      }
    }
  }
}
