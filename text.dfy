/**
 * The few Python `str` operations the core relies on, restricted to ASCII:
 * what `\w` and `\d` match, `str.lower()` and `str.capitalize()`.
 */
module Text {

  /** `\w` in this model: an ASCII letter, digit or underscore. */
  predicate IsWordChar(c: char) {
    ('a' <= c <= 'z') || ('A' <= c <= 'Z') || ('0' <= c <= '9') || c == '_'
  }

  /** `\d` in this model: an ASCII digit. */
  predicate IsDigit(c: char) {
    '0' <= c <= '9'
  }

  function LowerChar(c: char): char {
    if 'A' <= c <= 'Z' then (c as int + 32) as char else c
  }

  function UpperChar(c: char): char {
    if 'a' <= c <= 'z' then (c as int - 32) as char else c
  }

  /** `s.lower()`: every character lower-cased, nothing else changed. */
  function Lower(s: string): (r: string)
    ensures |r| == |s|
  {
    seq(|s|, i requires 0 <= i < |s| => LowerChar(s[i]))
  }

  /** `s.capitalize()`: first character upper-cased, the rest lower-cased. */
  function Capitalize(s: string): (r: string)
    ensures |r| == |s|
  {
    seq(|s|, i requires 0 <= i < |s| => if i == 0 then UpperChar(s[0]) else LowerChar(s[i]))
  }

  /** Lower-casing a word character gives a word character; any other character is left alone. */
  lemma LowerCharClass(c: char)
    ensures IsWordChar(LowerChar(c)) == IsWordChar(c)
    ensures !IsWordChar(c) ==> LowerChar(c) == c
  {
  }

  /** `r` is the lower-case form of `s` exactly when it lower-cases `s` character by character. */
  lemma LowerChars(s: string, r: string)
    requires |r| == |s| && forall i :: 0 <= i < |s| ==> r[i] == LowerChar(s[i])
    ensures Lower(s) == r
  {
    assert forall i :: 0 <= i < |s| ==> Lower(s)[i] == r[i];
  }

  lemma LowerIdempotent(s: string)
    ensures Lower(Lower(s)) == Lower(s)
  {
    LowerChars(Lower(s), Lower(s));
  }

  /** A string without upper-case ASCII letters is its own lower-case form. */
  lemma LowerOfLowerCase(s: string)
    requires forall i :: 0 <= i < |s| ==> !('A' <= s[i] <= 'Z')
    ensures Lower(s) == s
  {
    LowerChars(s, s);
  }

  /** Capitalising a string never changes its lower-case form. */
  lemma LowerOfCapitalize(s: string)
    ensures Lower(Capitalize(s)) == Lower(s)
  {
    var c := Capitalize(s);
    forall i | 0 <= i < |s|
      ensures Lower(s)[i] == LowerChar(c[i])
    {
      CaseOfChar(s[i]);
    }
    LowerChars(c, Lower(s));
  }

  /** Lower-casing undoes upper-casing and changes nothing the second time. */
  lemma CaseOfChar(ch: char)
    ensures LowerChar(UpperChar(ch)) == LowerChar(ch)
    ensures LowerChar(LowerChar(ch)) == LowerChar(ch)
  {
  }
}
