/** Lower-casing of addresses. */
module Text {

  function LowerChar(c: char): (l: char)
    ensures !('A' <= l <= 'Z')
  {
    if 'A' <= c <= 'Z' then (c as int + 32) as char else c
  }

  /** `toLowerCase` on hexadecimal addresses. */
  function ToLower(s: string): (l: string)
    ensures IsLower(l) && |l| == |s|
    ensures forall i :: 0 <= i < |s| ==> l[i] == LowerChar(s[i])
  {
    seq(|s|, i requires 0 <= i < |s| => LowerChar(s[i]))
  }

  predicate IsLower(s: string) { forall i :: 0 <= i < |s| ==> !('A' <= s[i] <= 'Z') }

  /** The same character, or the same letter in different case. */
  predicate SameLetter(a: char, b: char) {
    || a == b
    || ('A' <= a <= 'Z' && b as int == a as int + 32)
    || ('A' <= b <= 'Z' && a as int == b as int + 32)
  }

  predicate SameIgnoringCase(s: string, t: string) {
    |s| == |t| && forall i :: 0 <= i < |s| ==> SameLetter(s[i], t[i])
  }

  /** Lower-casing forgets case and nothing else. */
  lemma ToLowerEqualIff(s: string, t: string)
    ensures ToLower(s) == ToLower(t) <==> SameIgnoringCase(s, t)
  {
    forall i | 0 <= i < |s| && i < |t| ensures LowerChar(s[i]) == LowerChar(t[i]) <==> SameLetter(s[i], t[i]) {
      SameLetterIff(s[i], t[i]);
    }
    if ToLower(s) == ToLower(t) {
      forall i | 0 <= i < |s| ensures SameLetter(s[i], t[i]) { assert ToLower(s)[i] == ToLower(t)[i]; }
    }
  }

  lemma SameLetterIff(a: char, b: char)
    ensures LowerChar(a) == LowerChar(b) <==> SameLetter(a, b)
  {
  }
}
