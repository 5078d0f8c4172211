/** The string operations the search box relies on: `toLowerCase` (on the
    ASCII letters) and `includes`. */
module Text {

  predicate IsUpper(c: char) {
    'A' <= c <= 'Z'
  }

  /** ASCII lower-casing of one character. */
  function LowerChar(c: char): (d: char)
    ensures !IsUpper(d)
    ensures IsUpper(c) ==> 'a' <= d <= 'z' && d as int - c as int == 'a' as int - 'A' as int
    ensures !IsUpper(c) ==> d == c
  {
    if IsUpper(c) then (c as int - 'A' as int + 'a' as int) as char else c
  }

  /** `s.toLowerCase()`, on the ASCII letters. */
  function Lower(s: string): (r: string)
    ensures |r| == |s|
    ensures forall i :: 0 <= i < |s| ==> r[i] == LowerChar(s[i])
    decreases |s|
  {
    if s == [] then [] else [LowerChar(s[0])] + Lower(s[1..])
  }

  /** A lowered string has no upper-case letter, so lowering it again changes nothing. */
  lemma LowerIdempotent(s: string)
    ensures Lower(Lower(s)) == Lower(s)
  {
    var r := Lower(s);
    assert forall i :: 0 <= i < |r| ==> LowerChar(r[i]) == r[i];
  }

  /** A string without upper-case letters is its own lower-cased form. */
  lemma LowerOfLowerCase(s: string)
    requires forall i :: 0 <= i < |s| ==> !IsUpper(s[i])
    ensures Lower(s) == s
  {
  }

  /** Needle n occurs in s starting at index i. */
  predicate OccursAt(s: string, n: string, i: int) {
    0 <= i && i + |n| <= |s| && s[i..i + |n|] == n
  }

  predicate StartsWith(s: string, prefix: string) {
    |prefix| <= |s| && s[..|prefix|] == prefix
  }

  /** `s.includes(n)`: a search from the left for a position where n starts. */
  predicate Includes(s: string, n: string)
    decreases |s|
  {
    StartsWith(s, n) || (s != [] && Includes(s[1..], n))
  }

  /** The search finds n exactly when n occurs somewhere in s. */
  lemma {:induction false} IncludesIff(s: string, n: string)
    ensures Includes(s, n) <==> exists i :: OccursAt(s, n, i)
    decreases |s|
  {
    if StartsWith(s, n) {
      assert OccursAt(s, n, 0);
    } else if s != [] {
      IncludesIff(s[1..], n);
      forall i | OccursAt(s, n, i) && i > 0 ensures OccursAt(s[1..], n, i - 1) {
        assert s[1..][i - 1..i - 1 + |n|] == s[i..i + |n|];
      }
      if Includes(s[1..], n) {
        var i :| OccursAt(s[1..], n, i);
        assert s[1..][i..i + |n|] == s[i + 1..i + 1 + |n|];
        assert OccursAt(s, n, i + 1);
      }
    }
  }

  /** Every string includes the empty string. */
  lemma IncludesEmpty(s: string)
    ensures Includes(s, "")
  {
    assert StartsWith(s, "");
  }
}
