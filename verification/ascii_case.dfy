/** Python's `str.upper()` and `str.lower()`, restricted to the ASCII
    letters. Only two questions are ever put to them in the core: is a
    level name "NONE" ignoring case, and which logger method does a level
    name select. No non-ASCII character upper-cases to N, O or E or
    lower-cases to a letter of a logging method name, so the ASCII
    mapping answers both exactly as Python does. */
module AsciiCase {

  /** One character upper-cased: never a lower-case letter afterwards, and
      a character that is not a lower-case letter is left alone. */
  function UpperChar(c: char): (u: char)
    ensures !('a' <= u <= 'z')
    ensures !('a' <= c <= 'z') ==> u == c
  {
    if 'a' <= c <= 'z' then (c as int - 32) as char else c
  }

  /** One character lower-cased: never an upper-case letter afterwards, a
      character that is not an upper-case letter is left alone, and an
      upper-case letter comes back from `UpperChar`. */
  function LowerChar(c: char): (l: char)
    ensures !('A' <= l <= 'Z')
    ensures !('A' <= c <= 'Z') ==> l == c
    ensures 'A' <= c <= 'Z' ==> UpperChar(l) == c
  {
    if 'A' <= c <= 'Z' then (c as int + 32) as char else c
  }

  /** `s.upper()`: the same length, every character upper-cased on its own. */
  function Upper(s: string): (r: string)
    ensures |r| == |s|
    ensures forall i :: 0 <= i < |s| ==> r[i] == UpperChar(s[i])
  {
    if s == [] then [] else [UpperChar(s[0])] + Upper(s[1..])
  }

  /** `s.lower()`: the same length, every character lower-cased on its own. */
  function Lower(s: string): (r: string)
    ensures |r| == |s|
    ensures forall i :: 0 <= i < |s| ==> r[i] == LowerChar(s[i])
  {
    if s == [] then [] else [LowerChar(s[0])] + Lower(s[1..])
  }

  /** Two strings that agree ignoring case: position by position, their
      characters agree once upper-cased. */
  predicate EqualIgnoringCase(s: string, t: string) {
    |s| == |t| && forall i :: 0 <= i < |s| ==> UpperChar(s[i]) == UpperChar(t[i])
  }

  /** Comparing upper-case forms is comparing ignoring case. */
  lemma UpperEqualIffEqualIgnoringCase(s: string, t: string)
    ensures Upper(s) == Upper(t) <==> EqualIgnoringCase(s, t)
  {
  }
}
