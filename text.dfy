/** The string operations of the search command: `str.lower()` restricted to
    ASCII letters and Python's substring test `needle in haystack`. */
module Text {

  /** Lower-cases one ASCII letter and leaves every other character alone. */
  function Lower(c: char): (d: char)
    ensures 'A' <= c <= 'Z' ==> 'a' <= d <= 'z' && d as int - c as int == 32
    ensures !('A' <= c <= 'Z') ==> d == c
  {
    if 'A' <= c <= 'Z' then (c as int + 32) as char else c
  }

  /** Lower-cases every character of `s`. */
  function LowerStr(s: string): string
  {
    seq(|s|, i requires 0 <= i < |s| => Lower(s[i]))
  }

  /** `needle` occurs in `haystack` starting at position `i`. */
  ghost predicate OccursAt(haystack: string, needle: string, i: nat)
  {
    i + |needle| <= |haystack| && haystack[i..i + |needle|] == needle
  }

  /** Python's `needle in haystack` for strings: a scan that tries each
      starting position in turn. */
  predicate Contains(haystack: string, needle: string)
    decreases |haystack|
  {
    needle <= haystack || (haystack != [] && Contains(haystack[1..], needle))
  }

  /** The scan succeeds exactly when some starting position holds `needle`. */
  lemma {:induction false} ContainsIff(haystack: string, needle: string)
    ensures Contains(haystack, needle) <==> exists i: nat :: OccursAt(haystack, needle, i)
    decreases |haystack|
  {
    if needle <= haystack {
      assert OccursAt(haystack, needle, 0);
    } else if haystack == [] {
      assert forall i: nat :: !OccursAt(haystack, needle, i);
    } else {
      ContainsIff(haystack[1..], needle);
      if Contains(haystack[1..], needle) {
        var i: nat :| OccursAt(haystack[1..], needle, i);
        assert haystack[i + 1..i + 1 + |needle|] == haystack[1..][i..i + |needle|];
        assert OccursAt(haystack, needle, i + 1);
      } else {
        forall i: nat | 0 < i && OccursAt(haystack, needle, i)
          ensures OccursAt(haystack[1..], needle, i - 1)
        {
          assert haystack[1..][i - 1..i - 1 + |needle|] == haystack[i..i + |needle|];
        }
        assert !OccursAt(haystack, needle, 0);
      }
    }
  }

  /** The empty string occurs in every string. */
  lemma ContainsEmpty(haystack: string)
    ensures Contains(haystack, "")
  {
  }
}
