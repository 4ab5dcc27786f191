/**
  Locale-independent case handling for trigger names.
  Trigger names are compared after an ASCII case fold: `ToLower` stands for
  `String.toLowerCase(Locale.US)` and `EqualsIgnoreCase` for
  `String.equalsIgnoreCase`, both restricted to the letters A-Z and a-z.
 */
module CaseFold {

  predicate IsUpper(c: char) {
    'A' <= c <= 'Z'
  }

  predicate IsLower(c: char) {
    'a' <= c <= 'z'
  }

  function ToLowerChar(c: char): char {
    if IsUpper(c) then (c as int + 32) as char else c
  }

  function ToUpperChar(c: char): char {
    if IsLower(c) then (c as int - 32) as char else c
  }

  /** A string that the case fold leaves alone: it holds no upper-case letter. */
  predicate IsLowerCase(s: string) {
    forall i :: 0 <= i < |s| ==> !IsUpper(s[i])
  }

  /** Folds every upper-case letter of `s` to lower case and keeps every other character. */
  function ToLower(s: string): (r: string)
    ensures |r| == |s|
    ensures forall i :: 0 <= i < |s| ==> r[i] == ToLowerChar(s[i])
    ensures IsLowerCase(r)
    ensures IsLowerCase(s) ==> r == s
  {
    if s == [] then [] else [ToLowerChar(s[0])] + ToLower(s[1..])
  }

  /**
    The per-character test of `String.regionMatches(true, ...)`: two characters
    match when they are equal, when their upper-case forms are equal, or when the
    lower-case forms of their upper-case forms are equal.
   */
  predicate CharsMatchIgnoringCase(c1: char, c2: char) {
    || c1 == c2
    || ToUpperChar(c1) == ToUpperChar(c2)
    || ToLowerChar(ToUpperChar(c1)) == ToLowerChar(ToUpperChar(c2))
  }

  lemma CharsMatchIffSameFold(c1: char, c2: char)
    ensures CharsMatchIgnoringCase(c1, c2) <==> ToLowerChar(c1) == ToLowerChar(c2)
  {
  }

  /**
    `String.equalsIgnoreCase`: equal lengths and a character-by-character match.
    It agrees with comparing the two case folds.
   */
  function EqualsIgnoreCase(a: string, b: string): (r: bool)
    ensures r <==> ToLower(a) == ToLower(b)
  {
    if |a| != |b| then false
    else if a == [] then true
    else
      CharsMatchIffSameFold(a[0], b[0]);
      assert ToLower(a) == [ToLowerChar(a[0])] + ToLower(a[1..]);
      assert ToLower(b) == [ToLowerChar(b[0])] + ToLower(b[1..]);
      CharsMatchIgnoringCase(a[0], b[0]) && EqualsIgnoreCase(a[1..], b[1..])
  }
}
