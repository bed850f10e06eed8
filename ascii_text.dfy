/**
 * The string operations the browser factory relies on, over ASCII case mapping:
 * `String.toLowerCase`, `String.equalsIgnoreCase`, `String.contains` and
 * `Boolean.parseBoolean`. Characters outside `A`-`Z` / `a`-`z` have no case here.
 */
module AsciiText {

  function LowerChar(c: char): char {
    if 'A' <= c <= 'Z' then (c as int + 32) as char else c
  }

  function UpperChar(c: char): char {
    if 'a' <= c <= 'z' then (c as int - 32) as char else c
  }

  /** `s` has no upper-case letter. */
  predicate IsLowerCase(s: string) {
    forall i :: 0 <= i < |s| ==> LowerChar(s[i]) == s[i]
  }

  /** `s` is the lower-case name `name` written in some mix of upper and lower case. */
  predicate IsCasingOf(s: string, name: string) {
    |s| == |name| && forall i :: 0 <= i < |s| ==> s[i] == name[i] || s[i] == UpperChar(name[i])
  }

  /** `String.toLowerCase`: every character mapped through `LowerChar`, nothing else changed. */
  function ToLower(s: string): (r: string)
    ensures |r| == |s|
    ensures forall i :: 0 <= i < |s| ==> r[i] == LowerChar(s[i])
  {
    if s == [] then [] else [LowerChar(s[0])] + ToLower(s[1..])
  }

  /** One position of `String.equalsIgnoreCase`: equal, equal upper-cased, or equal lower-cased after that. */
  predicate CharsMatchIgnoringCase(a: char, b: char) {
    a == b || UpperChar(a) == UpperChar(b) || LowerChar(UpperChar(a)) == LowerChar(UpperChar(b))
  }

  /** `String.equalsIgnoreCase` for two non-null strings. */
  predicate EqualsIgnoreCase(a: string, b: string) {
    |a| == |b| && forall i :: 0 <= i < |a| ==> CharsMatchIgnoringCase(a[i], b[i])
  }

  /** `Boolean.parseBoolean` of a non-null string. */
  predicate ParseBoolean(s: string) {
    EqualsIgnoreCase("true", s)
  }

  /** `String.contains`: `sub` occurs somewhere in `s` as a contiguous slice. */
  predicate Contains(s: string, sub: string) {
    exists i | 0 <= i <= |s| - |sub| :: OccursAt(s, sub, i)
  }

  /** `sub` is the slice of `s` that starts at index `i`. */
  predicate OccursAt(s: string, sub: string, i: int) {
    0 <= i <= |s| - |sub| && s[i..i + |sub|] == sub
  }

  lemma CharsMatchIsLowerEquality(a: char, b: char)
    ensures CharsMatchIgnoringCase(a, b) <==> LowerChar(a) == LowerChar(b)
  {
  }

  /** Comparing ignoring case is the same as comparing the lower-cased strings. */
  lemma EqualsIgnoreCaseIsLowerEquality(a: string, b: string)
    ensures EqualsIgnoreCase(a, b) <==> ToLower(a) == ToLower(b)
  {
    if EqualsIgnoreCase(a, b) {
      forall i | 0 <= i < |a| ensures ToLower(a)[i] == ToLower(b)[i] {
        CharsMatchIsLowerEquality(a[i], b[i]);
      }
    }
    if ToLower(a) == ToLower(b) {
      forall i | 0 <= i < |a| ensures CharsMatchIgnoringCase(a[i], b[i]) {
        assert ToLower(a)[i] == ToLower(b)[i];
        CharsMatchIsLowerEquality(a[i], b[i]);
      }
    }
  }

  /** `parseBoolean` is true exactly for "true" in any casing. */
  lemma ParseBooleanIsLowerTrue(s: string)
    ensures ParseBoolean(s) <==> ToLower(s) == "true"
  {
    EqualsIgnoreCaseIsLowerEquality("true", s);
    assert ToLower("true") == "true";
  }

  /** Lower-casing any casing of a lower-case name gives back that name. */
  lemma LowerOfCasing(s: string, name: string)
    requires IsLowerCase(name) && IsCasingOf(s, name)
    ensures ToLower(s) == name
  {
    forall i | 0 <= i < |s| ensures ToLower(s)[i] == name[i] {
      assert LowerChar(name[i]) == name[i];
    }
  }
}
