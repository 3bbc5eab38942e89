/**
 Character classes and case mapping used by the normalizer and the evaluator.

 The regular expressions `/[a-zA-Z]/`, `/[a-z]/` and `/\d/` are ASCII classes and
 are modelled exactly. `/\s/` and `String.prototype.trim` share one whitespace set
 (the ECMAScript WhiteSpace and LineTerminator productions), which `IsSpace` lists
 in full. Case mapping is ASCII-only.
 */
module Chars {

  predicate IsUpper(c: char) {
    'A' <= c <= 'Z'
  }

  predicate IsLower(c: char) {
    'a' <= c <= 'z'
  }

  /** `/[a-zA-Z]/` */
  predicate IsLetter(c: char) {
    IsUpper(c) || IsLower(c)
  }

  /** `/\d/` */
  predicate IsDigit(c: char) {
    '0' <= c <= '9'
  }

  /** `/\s/`, and the characters `trim` removes */
  predicate IsSpace(c: char) {
    || c == '\t' || c == '\n' || c == '\U{000B}' || c == '\U{000C}' || c == '\r' || c == ' '
    || c == '\U{00A0}' || c == '\U{1680}' || ('\U{2000}' <= c <= '\U{200A}')
    || c == '\U{2028}' || c == '\U{2029}' || c == '\U{202F}' || c == '\U{205F}'
    || c == '\U{3000}' || c == '\U{FEFF}'
  }

  /** `toUpperCase` on one character, ASCII only */
  function ToUpper(c: char): (r: char)
    ensures IsLower(c) ==> IsUpper(r) && r as int == c as int - 32
    ensures !IsLower(c) ==> r == c
  {
    if IsLower(c) then (c as int - 32) as char else c
  }

  /** `toLowerCase` on one character, ASCII only */
  function ToLower(c: char): (r: char)
    ensures IsUpper(c) ==> IsLower(r) && r as int == c as int + 32
    ensures !IsUpper(c) ==> r == c
  {
    if IsUpper(c) then (c as int + 32) as char else c
  }

  /** `toLowerCase` on a string */
  function Lower(s: string): (r: string)
    ensures |r| == |s|
    ensures forall k :: 0 <= k < |s| ==> r[k] == ToLower(s[k])
  {
    seq(|s|, k requires 0 <= k < |s| => ToLower(s[k]))
  }

  /** Upper-casing a character and lower-casing it again gives the same as lower-casing it. */
  lemma LowerOfUpper(c: char)
    ensures ToLower(ToUpper(c)) == ToLower(c)
  {
  }

  /** Neither case mapping changes whether a character is whitespace, a digit or a letter. */
  lemma CaseMappingKeepsClass(c: char)
    ensures IsSpace(ToLower(c)) == IsSpace(c) && IsSpace(ToUpper(c)) == IsSpace(c)
    ensures IsDigit(ToLower(c)) == IsDigit(c) && IsDigit(ToUpper(c)) == IsDigit(c)
    ensures IsLetter(ToLower(c)) == IsLetter(c) && IsLetter(ToUpper(c)) == IsLetter(c)
  {
  }

  /** Whitespace is never a letter, a digit or the underscore that replaces it in a key. */
  lemma SpaceIsNoWordChar(c: char)
    ensures IsSpace(c) ==> !IsLetter(c) && !IsDigit(c) && c != '_'
  {
  }
}
