/**
 * Currency symbols as strings, and the two case mappings the providers apply
 * to them (`toLowerCase`, `toUpperCase`), restricted to ASCII letters.
 */
module Symbols {

  predicate IsUpperLetter(c: char) { 'A' <= c <= 'Z' }
  predicate IsLowerLetter(c: char) { 'a' <= c <= 'z' }
  predicate IsDigit(c: char) { '0' <= c <= '9' }

  /** A character of the class `[A-Za-z0-9]`. */
  predicate IsAlphanumeric(c: char) {
    IsUpperLetter(c) || IsLowerLetter(c) || IsDigit(c)
  }

  function LowerChar(c: char): char {
    if IsUpperLetter(c) then (c as int + 32) as char else c
  }

  function UpperChar(c: char): char {
    if IsLowerLetter(c) then (c as int - 32) as char else c
  }

  predicate NoUpperLetter(s: string) {
    forall i :: 0 <= i < |s| ==> !IsUpperLetter(s[i])
  }

  predicate NoLowerLetter(s: string) {
    forall i :: 0 <= i < |s| ==> !IsLowerLetter(s[i])
  }

  /**
   * `s.toLowerCase()`: no upper-case letter is left, and each character is
   * kept or is an upper-case letter replaced by its lower-case partner.
   */
  function ToLower(s: string): (r: string)
    ensures |r| == |s|
    ensures NoUpperLetter(r)
    ensures forall i :: 0 <= i < |s| ==>
      r[i] == s[i] || (IsUpperLetter(s[i]) && r[i] as int == s[i] as int + 32)
  {
    seq(|s|, i requires 0 <= i < |s| => LowerChar(s[i]))
  }

  /**
   * `s.toUpperCase()`: no lower-case letter is left, and each character is
   * kept or is a lower-case letter replaced by its upper-case partner.
   */
  function ToUpper(s: string): (r: string)
    ensures |r| == |s|
    ensures NoLowerLetter(r)
    ensures forall i :: 0 <= i < |s| ==>
      r[i] == s[i] || (IsLowerLetter(s[i]) && r[i] as int + 32 == s[i] as int)
  {
    seq(|s|, i requires 0 <= i < |s| => UpperChar(s[i]))
  }

  /** Lower-casing an upper-cased string gives the string's own lower-case form. */
  lemma LowerOfUpper(s: string)
    ensures ToLower(ToUpper(s)) == ToLower(s)
  {
    assert forall i :: 0 <= i < |s| ==> ToLower(ToUpper(s))[i] == ToLower(s)[i];
  }

  /** Upper-casing a lower-cased string gives the string's own upper-case form. */
  lemma UpperOfLower(s: string)
    ensures ToUpper(ToLower(s)) == ToUpper(s)
  {
    assert forall i :: 0 <= i < |s| ==> ToUpper(ToLower(s))[i] == ToUpper(s)[i];
  }

  /** Case mapping keeps the characters that are not letters, `'_'` among them. */
  lemma CaseKeepsUnderscore(s: string, i: int)
    requires 0 <= i < |s|
    ensures ToLower(s)[i] == '_' <==> s[i] == '_'
    ensures ToUpper(s)[i] == '_' <==> s[i] == '_'
  {
  }
}
