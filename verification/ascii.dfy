/** ASCII character classes and case mapping, standing in for the white space
    `int()` skips and for Python's `str.upper` and `str.lower` on the ASCII
    range. */
module Ascii {

  predicate IsDigit(c: char) {
    '0' <= c <= '9'
  }

  predicate IsUpperLetter(c: char) {
    'A' <= c <= 'Z'
  }

  predicate IsLowerLetter(c: char) {
    'a' <= c <= 'z'
  }

  /** The white space `int()` skips around the digits of an ASCII string: tab,
      line feed, vertical tab, form feed, carriage return (9..13) and space.
      The information separators 28..31, which `str.isspace()` accepts, are
      not skipped. */
  predicate IsSpace(c: char) {
    9 <= c as int <= 13 || c == ' '
  }

  function UpperChar(c: char): (u: char)
    ensures !IsLowerLetter(u)
    ensures IsLowerLetter(c) ==> u as int == c as int - 32
    ensures !IsLowerLetter(c) ==> u == c
  {
    if IsLowerLetter(c) then (c as int - 32) as char else c
  }

  function LowerChar(c: char): (l: char)
    ensures !IsUpperLetter(l)
    ensures IsUpperLetter(c) ==> l as int == c as int + 32
    ensures !IsUpperLetter(c) ==> l == c
  {
    if IsUpperLetter(c) then (c as int + 32) as char else c
  }

  /** `s.upper()`: every ASCII lower-case letter replaced by its upper-case
      letter, every other character kept. */
  function Upper(s: string): (u: string)
    ensures |u| == |s|
    ensures forall i | 0 <= i < |u| :: !IsLowerLetter(u[i])
    ensures forall i | 0 <= i < |s| :: IsLowerLetter(s[i]) ==> u[i] as int == s[i] as int - 32
    ensures forall i | 0 <= i < |s| :: !IsLowerLetter(s[i]) ==> u[i] == s[i]
  {
    seq(|s|, i requires 0 <= i < |s| => UpperChar(s[i]))
  }

  /** `s.lower()`: every ASCII upper-case letter replaced by its lower-case
      letter, every other character kept. */
  function Lower(s: string): (l: string)
    ensures |l| == |s|
    ensures forall i | 0 <= i < |l| :: !IsUpperLetter(l[i])
    ensures forall i | 0 <= i < |s| :: IsUpperLetter(s[i]) ==> l[i] as int == s[i] as int + 32
    ensures forall i | 0 <= i < |s| :: !IsUpperLetter(s[i]) ==> l[i] == s[i]
  {
    seq(|s|, i requires 0 <= i < |s| => LowerChar(s[i]))
  }

  /** A string with no ASCII upper-case letter is its own lower-case form. */
  lemma LowerWithoutCapitals(s: string)
    requires forall i | 0 <= i < |s| :: !IsUpperLetter(s[i])
    ensures Lower(s) == s
  {
  }

  /** A string with no ASCII lower-case letter is its own upper-case form. */
  lemma UpperWithoutSmallLetters(s: string)
    requires forall i | 0 <= i < |s| :: !IsLowerLetter(s[i])
    ensures Upper(s) == s
  {
  }

  /** A string with no ASCII letter is its own upper- and lower-case form. */
  lemma WithoutLetters(s: string)
    requires forall i | 0 <= i < |s| :: !IsUpperLetter(s[i]) && !IsLowerLetter(s[i])
    ensures Lower(s) == s && Upper(s) == s
  {
    LowerWithoutCapitals(s);
    UpperWithoutSmallLetters(s);
  }

  /** Case mapping forgets the case it started from: upper-casing a
      lower-cased string gives what upper-casing the original gives, and the
      other way round. */
  lemma CaseRoundTrip(s: string)
    ensures Upper(Lower(s)) == Upper(s)
    ensures Lower(Upper(s)) == Lower(s)
  {
  }
}
