/** String helpers shared by the keyboard listeners and the query-flag parser. */
module Text {

  /** `toLowerCase` on one character, for the ASCII letters. */
  function LowerChar(c: char): (r: char)
    ensures 'A' <= c <= 'Z' ==> 'a' <= r <= 'z' && r as int == c as int - 'A' as int + 'a' as int
    ensures !('A' <= c <= 'Z') ==> r == c
  {
    if 'A' <= c <= 'Z' then (c as int - 'A' as int + 'a' as int) as char else c
  }

  /** `String.prototype.toLowerCase`, for the ASCII letters. */
  function Lower(s: string): (r: string)
    ensures |r| == |s|
    ensures forall i :: 0 <= i < |s| ==> r[i] == LowerChar(s[i])
  {
    if |s| == 0 then [] else Lower(s[..|s| - 1]) + [LowerChar(s[|s| - 1])]
  }

  /** A lower-cased string has no upper-case ASCII letter left. */
  lemma LowerHasNoUpper(s: string)
    ensures forall i :: 0 <= i < |s| ==> !('A' <= Lower(s)[i] <= 'Z')
  {
  }

  /** Lower-casing twice is lower-casing once. */
  lemma LowerIdempotent(s: string)
    ensures Lower(Lower(s)) == Lower(s)
  {
    LowerHasNoUpper(s);
  }

  /** Two strings that differ only in the case of their letters lower-case alike. */
  predicate SameUpToCase(a: string, b: string)
  {
    |a| == |b| && forall i :: 0 <= i < |a| ==> LowerChar(a[i]) == LowerChar(b[i])
  }

  lemma LowerSameUpToCase(a: string, b: string)
    requires SameUpToCase(a, b)
    ensures Lower(a) == Lower(b)
  {
  }
}
