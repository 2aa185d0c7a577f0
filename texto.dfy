/** ASCII model of JavaScript's String.prototype.toUpperCase, as the App
    component applies it to a product's nome and categoria. Only the 26
    letters 'a'..'z' are mapped; every other character is left alone. */
module Texto {

  predicate IsLower(c: char) {
    'a' <= c <= 'z'
  }

  /** No character of s is a lower-case ASCII letter. */
  predicate NoLower(s: string) {
    forall i :: 0 <= i < |s| ==> !IsLower(s[i])
  }

  function UpperChar(c: char): (d: char)
    ensures !IsLower(d)
    ensures IsLower(c) ==> d as int == c as int - 32
    ensures !IsLower(c) ==> d == c
  {
    if IsLower(c) then (c as int - 32) as char else c
  }

  /** toUpperCase, restricted to ASCII: same length, lower-case letters are
      shifted to their capitals and nothing else changes. */
  function Upper(s: string): (r: string)
    ensures |r| == |s|
    ensures NoLower(r)
    ensures forall i :: 0 <= i < |s| && !IsLower(s[i]) ==> r[i] == s[i]
    ensures forall i :: 0 <= i < |s| && IsLower(s[i]) ==> r[i] as int == s[i] as int - 32
    decreases |s|
  {
    if s == "" then "" else [UpperChar(s[0])] + Upper(s[1..])
  }

  /** A string with no lower-case letter is its own upper case. */
  lemma UpperFixesNoLower(s: string)
    requires NoLower(s)
    ensures Upper(s) == s
  {
  }

  /** Upper-casing twice is upper-casing once: a form value that has
      already been upper-cased in place is sent unchanged on a second
      submission. */
  lemma {:induction false} UpperIdempotent(s: string)
    ensures Upper(Upper(s)) == Upper(s)
  {
    UpperFixesNoLower(Upper(s));
  }

  /** Upper-casing neither empties a string nor fills an empty one, so
      checking for emptiness before or after it is the same check. */
  lemma UpperEmptyIff(s: string)
    ensures Upper(s) == "" <==> s == ""
  {
  }
}
