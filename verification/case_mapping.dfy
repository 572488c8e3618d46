/**
 * Case mapping of text, restricted to ASCII: the letters 'a'..'z' and 'A'..'Z'
 * change case, every other character is left as it is. These are the string
 * operations behind the form clean hooks: `str.lower()` and `str.capitalize()`.
 */
module CaseMapping {

  predicate IsUpper(c: char) { 'A' <= c <= 'Z' }

  predicate IsLower(c: char) { 'a' <= c <= 'z' }

  /** Upper-case one character. */
  function UpperChar(c: char): (d: char)
    ensures !IsLower(d)
    ensures IsLower(c) <==> IsUpper(d) && d != c
    ensures !IsLower(c) ==> d == c
  {
    if IsLower(c) then (c as int - 'a' as int + 'A' as int) as char else c
  }

  /** Lower-case one character. */
  function LowerChar(c: char): (d: char)
    ensures !IsUpper(d)
    ensures IsUpper(c) <==> IsLower(d) && d != c
    ensures !IsUpper(c) ==> d == c
  {
    if IsUpper(c) then (c as int - 'A' as int + 'a' as int) as char else c
  }

  /** `s.lower()`: every character lower-cased, nothing upper-case left. */
  function Lower(s: string): (r: string)
    ensures |r| == |s|
    ensures forall i :: 0 <= i < |s| ==> r[i] == LowerChar(s[i])
    ensures forall i :: 0 <= i < |r| ==> !IsUpper(r[i])
  {
    if s == [] then [] else [LowerChar(s[0])] + Lower(s[1..])
  }

  /** `r` is `s` with its first character upper-cased and every later one lower-cased. */
  predicate IsCapitalizationOf(r: string, s: string)
  {
    && |r| == |s|
    && (|s| > 0 ==> r[0] == UpperChar(s[0]))
    && forall i :: 1 <= i < |s| ==> r[i] == LowerChar(s[i])
  }

  /** `s.capitalize()`. */
  function Capitalize(s: string): (r: string)
    ensures IsCapitalizationOf(r, s)
    ensures s == [] ==> r == []
    ensures |r| > 0 ==> !IsLower(r[0])
    ensures forall i :: 1 <= i < |r| ==> !IsUpper(r[i])
  {
    if s == [] then [] else [UpperChar(s[0])] + Lower(s[1..])
  }

  /** The capitalisation of a string is unique: the characterwise description pins it down. */
  lemma CapitalizationUnique(r: string, r': string, s: string)
    requires IsCapitalizationOf(r, s) && IsCapitalizationOf(r', s)
    ensures r == r'
  {
  }

  /** Lower-casing twice is lower-casing once. */
  lemma LowerIdempotent(s: string)
    ensures Lower(Lower(s)) == Lower(s)
  {
  }

  /** Capitalising twice is capitalising once. */
  lemma CapitalizeIdempotent(s: string)
    ensures Capitalize(Capitalize(s)) == Capitalize(s)
  {
  }

  /** Capitalising ignores the case the input was typed in, and lower-casing undoes it. */
  lemma CapitalizeIgnoresCase(s: string)
    ensures Capitalize(Lower(s)) == Capitalize(s)
    ensures Lower(Capitalize(s)) == Lower(s)
  {
  }

  /** The worked examples: a username and a first name with an accented letter. */
  lemma Examples()
    ensures Lower("John") == "john"
    ensures Capitalize("maría") == "María"
    ensures Capitalize("jOHN") == "John"
    ensures Capitalize("") == ""
  {
  }
}
