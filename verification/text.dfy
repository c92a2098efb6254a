/** The two string operations the format dispatch relies on: `str.lower` and `str.endswith`. */
module Text {

  /** ASCII lower-casing of one character; every other character is left alone. */
  function LowerChar(c: char): char {
    if 'A' <= c <= 'Z' then (c as int - 'A' as int + 'a' as int) as char else c
  }

  /** `s.lower()`, restricted to ASCII letters. */
  function Lower(s: string): string {
    seq(|s|, i requires 0 <= i < |s| => LowerChar(s[i]))
  }

  /** `s.endswith(suffix)`. */
  predicate EndsWith(s: string, suffix: string) {
    |suffix| <= |s| && s[|s| - |suffix|..] == suffix
  }

  /** Two strings are case variants of each other when they agree letter by letter up to ASCII case. */
  predicate CaseVariants(u: string, v: string) {
    |u| == |v| && forall i :: 0 <= i < |u| ==> LowerChar(u[i]) == LowerChar(v[i])
  }

  lemma CaseVariantsLowerAlike(u: string, v: string)
    requires CaseVariants(u, v)
    ensures Lower(u) == Lower(v)
  {
    assert forall i :: 0 <= i < |u| ==> Lower(u)[i] == Lower(v)[i];
  }

  /** Two suffixes of one string are nested: the shorter is a suffix of the longer. */
  lemma SuffixesNest(s: string, a: string, b: string)
    requires |a| <= |b|
    ensures EndsWith(s, a) && EndsWith(s, b) ==> EndsWith(b, a)
  {
    if EndsWith(s, a) && EndsWith(s, b) {
      var tail := s[|s| - |b|..];
      assert tail[|tail| - |a|..] == s[|s| - |a|..];
    }
  }
}
