/** Text helpers the registry relies on: Python's `str.lower` (approximated
    on ASCII letters) and the blank test `not s.strip()`. */
module Texto {

  /** Lower-cases an ASCII capital letter and leaves every other character
      unchanged. Python's `str.lower` also folds non-ASCII capitals; this
      model does not. */
  function LowerChar(c: char): char {
    if 'A' <= c <= 'Z' then (c as int + 32) as char else c
  }

  /** The model of `s.lower()`. */
  function Lower(s: string): (r: string)
    ensures |r| == |s|
    ensures forall i :: 0 <= i < |s| ==> r[i] == LowerChar(s[i])
  {
    seq(|s|, i requires 0 <= i < |s| => LowerChar(s[i]))
  }

  /** The characters Python's argument-less `str.strip` removes. */
  predicate IsSpace(c: char) {
    || '\U{0009}' <= c <= '\U{000D}'
    || '\U{001C}' <= c <= '\U{0020}'
    || c == '\U{0085}' || c == '\U{00A0}' || c == '\U{1680}'
    || '\U{2000}' <= c <= '\U{200A}'
    || c == '\U{2028}' || c == '\U{2029}' || c == '\U{202F}'
    || c == '\U{205F}' || c == '\U{3000}'
  }

  /** `not s.strip()`: the string is empty or made only of white space,
      i.e. stripping leaves nothing. */
  predicate Blank(s: string): (b: bool)
    ensures b <==> forall i :: 0 <= i < |s| ==> IsSpace(s[i])
  {
    s == [] || (IsSpace(s[0]) && Blank(s[1..]))
  }

  /** Lower-casing twice is lower-casing once. */
  lemma LowerIdempotent(s: string)
    ensures Lower(Lower(s)) == Lower(s)
  {
  }

  /** Lower-casing neither creates nor removes white space, so a string is
      blank exactly when its lower-cased form is. */
  lemma LowerKeepsBlank(s: string)
    ensures Blank(Lower(s)) <==> Blank(s)
  {
    if !Blank(s) {
      var i :| 0 <= i < |s| && !IsSpace(s[i]);
      assert !IsSpace(Lower(s)[i]);
    }
  }

  /** Only the empty string lower-cases to the empty string. */
  lemma LowerEmpty(s: string)
    ensures Lower(s) == [] <==> s == []
  {
  }
}
