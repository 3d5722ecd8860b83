/** Character-level helpers over Java strings, here sequences of `char`
    (Unicode scalar values, so a character outside the Basic Multilingual
    Plane is one `char` where Java has a surrogate pair): upper-casing
    restricted to ASCII, and substring and prefix tests. */
module Text {

  predicate IsAscii(s: string)
  {
    forall i :: 0 <= i < |s| ==> s[i] < 128 as char
  }

  function AsciiUpperChar(c: char): char
  {
    if 'a' <= c <= 'z' then (c as int - 32) as char else c
  }

  /** Upper-cases the ASCII letters of `s` and leaves every other
      character alone. */
  function AsciiUpper(s: string): (r: string)
    ensures |r| == |s| && forall i :: 0 <= i < |s| ==> r[i] == AsciiUpperChar(s[i])
  {
    seq(|s|, i requires 0 <= i < |s| => AsciiUpperChar(s[i]))
  }

  /** Upper-casing twice is upper-casing once. */
  lemma AsciiUpperIdempotent(s: string)
    ensures AsciiUpper(AsciiUpper(s)) == AsciiUpper(s)
  {
  }

  /** Upper-casing commutes with taking a slice. */
  lemma AsciiUpperSlice(s: string, i: nat, j: nat)
    requires i <= j <= |s|
    ensures AsciiUpper(s[i..j]) == AsciiUpper(s)[i..j]
  {
  }

  lemma AsciiUpperPrefix(s: string, n: nat)
    requires n <= |s|
    ensures AsciiUpper(s[..n]) == AsciiUpper(s)[..n]
  {
    AsciiUpperSlice(s, 0, n);
    assert s[..n] == s[0..n];
  }

  /** `t` occurs in `s` at offset `i`. */
  predicate OccursAt(s: string, t: string, i: nat)
  {
    i + |t| <= |s| && s[i..i + |t|] == t
  }

  /** Java's `String.contains`: `t` occurs in `s` at some offset. */
  predicate Contains(s: string, t: string)
  {
    exists i :: 0 <= i <= |s| && OccursAt(s, t, i)
  }

  /** `s` starts with the upper-case word `w`, ignoring the case of ASCII
      letters only (a regular expression compiled with CASE_INSENSITIVE and
      without UNICODE_CASE). */
  predicate StartsWithIgnoringAsciiCase(s: string, w: string)
  {
    |w| <= |s| && AsciiUpper(s[..|w|]) == w
  }

  /** Starting with `w` ignoring ASCII case is having `w` as a prefix of
      the upper-cased text. */
  lemma StartsWithMeans(s: string, w: string)
    ensures StartsWithIgnoringAsciiCase(s, w) <==> w <= AsciiUpper(s)
  {
    if |w| <= |s| {
      AsciiUpperPrefix(s, |w|);
    }
  }
}
