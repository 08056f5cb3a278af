/** Case mapping as done by .NET's `string.ToLowerInvariant`, and case-insensitive comparison. */
module TextCase {

  /** The invariant-culture lower case of one character: ASCII capitals and the Latin-1
      capitals U+00C0..U+00DE (except the multiplication sign U+00D7) map to their small
      letters; every other character is left as it is. */
  function LowerChar(c: char): char {
    if 'A' <= c <= 'Z' || ('\U{C0}' <= c <= '\U{DE}' && c != '\U{D7}') then
      (c as int + 32) as char
    else
      c
  }

  /** `s.ToLowerInvariant()`: each character lowered, nothing added, removed or moved. */
  function Lower(s: string): (r: string)
    ensures |r| == |s|
    ensures forall i :: 0 <= i < |s| ==> r[i] == LowerChar(s[i])
  {
    if s == [] then [] else [LowerChar(s[0])] + Lower(s[1..])
  }

  /** The two strings are equal once letter case is ignored. */
  predicate EqualsIgnoringCase(a: string, b: string) {
    |a| == |b| && forall i :: 0 <= i < |a| ==> LowerChar(a[i]) == LowerChar(b[i])
  }

  /** A string already in lower case. */
  predicate IsLower(k: string) {
    forall i :: 0 <= i < |k| ==> LowerChar(k[i]) == k[i]
  }

  /** Comparing the lowered text with a lower-case keyword is exactly a case-insensitive
      comparison with that keyword (in both directions). */
  lemma LowerMatchesIgnoringCase(s: string, k: string)
    requires IsLower(k)
    ensures Lower(s) == k <==> EqualsIgnoringCase(s, k)
  {
    if Lower(s) == k {
      forall i | 0 <= i < |s| ensures LowerChar(s[i]) == LowerChar(k[i]) {
        assert Lower(s)[i] == LowerChar(s[i]);
      }
    }
    if EqualsIgnoringCase(s, k) {
      assert |Lower(s)| == |k|;
      forall i | 0 <= i < |k| ensures Lower(s)[i] == k[i] {
        assert k[i] == LowerChar(k[i]);
      }
    }
  }
}
