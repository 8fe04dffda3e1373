/**
  Character classes, restricted to ASCII.

  Two families are kept apart because the service uses both:
  - the classes of the field patterns (`\d`, `\w`, `\s`), which the schema
    library checks with a Rust-style regex engine, and
  - Python's `str.isalnum()` and `str.isspace()` (the latter drives `strip()`),
    used by the scoring rules.
  In ASCII they agree except that `isspace()` also holds for the four
  separator controls 0x1C-0x1F, which `\s` does not match.
*/
module Chars {

  /** `\d` and `str.isdigit()` on ASCII. */
  predicate IsDigit(c: char) { '0' <= c <= '9' }

  predicate IsLetter(c: char) { 'a' <= c <= 'z' || 'A' <= c <= 'Z' }

  /** `str.isalnum()` on ASCII. */
  predicate IsAlnum(c: char) { IsLetter(c) || IsDigit(c) }

  /** The regex class `\w` on ASCII. */
  predicate IsWordChar(c: char) { IsAlnum(c) || c == '_' }

  /** The regex class `\s` on ASCII: tab, line feed, vertical tab, form feed, carriage return, space. */
  predicate IsPatternSpace(c: char) { 9 <= c as int <= 13 || c == ' ' }

  /** `str.isspace()` on ASCII: the `\s` characters plus the separators 0x1C-0x1F. */
  predicate IsSpace(c: char) { IsPatternSpace(c) || 28 <= c as int <= 31 }

  /** ASCII lower-casing, used for case-insensitive month names. */
  function Lower(c: char): (r: char)
    ensures IsLetter(c) ==> 'a' <= r <= 'z'
    ensures !('A' <= c <= 'Z') ==> r == c
  {
    if 'A' <= c <= 'Z' then (c as int + 32) as char else c
  }

  function LowerAll(s: string): (r: string)
    ensures |r| == |s|
    ensures forall i :: 0 <= i < |s| ==> r[i] == Lower(s[i])
  {
    seq(|s|, i requires 0 <= i < |s| => Lower(s[i]))
  }
}
