/** The two string operations both programs rely on: `str.lower()` and the `in` substring test. */
module Text {

  /** `str.lower()` on one character; only the ASCII letters A-Z are mapped. */
  function LowerChar(c: char): char
  {
    if 'A' <= c <= 'Z' then (c as int + 32) as char else c
  }

  /** `str.lower()`, character by character: no upper-case letter is left, each one becomes
      its lower-case partner, and every other character is kept. */
  function Lower(s: string): (r: string)
    ensures |r| == |s|
    ensures forall i :: 0 <= i < |r| ==> !('A' <= r[i] <= 'Z')
    ensures forall i :: 0 <= i < |s| && 'A' <= s[i] <= 'Z' ==> r[i] as int == s[i] as int + 32
    ensures forall i :: 0 <= i < |s| && !('A' <= s[i] <= 'Z') ==> r[i] == s[i]
  {
    seq(|s|, i requires 0 <= i < |s| => LowerChar(s[i]))
  }

  /** Lower-casing twice is lower-casing once. */
  lemma LowerIdempotent(s: string)
    ensures Lower(Lower(s)) == Lower(s)
  {
  }

  /** `w` occurs in `s` starting at index `i`. */
  ghost predicate OccursAt(s: string, w: string, i: int)
  {
    0 <= i && i + |w| <= |s| && s[i..i + |w|] == w
  }

  /** Python's `w in s` for strings: true exactly when `w` is a substring of `s`
      (so the empty string is in every string). */
  function Contains(s: string, w: string): (b: bool)
    ensures b <==> exists i :: OccursAt(s, w, i)
    decreases |s|
  {
    if |w| > |s| then
      false
    else if s[..|w|] == w then
      assert OccursAt(s, w, 0);
      true
    else
      OccursShift(s, w);
      Contains(s[1..], w)
  }

  /** Past index 0, the occurrences of `w` in `s` are those in `s[1..]`, shifted by one. */
  lemma OccursShift(s: string, w: string)
    requires |s| > 0 && (|w| > |s| || s[..|w|] != w)
    ensures (exists i :: OccursAt(s, w, i)) <==> (exists i :: OccursAt(s[1..], w, i))
  {
    forall i | OccursAt(s[1..], w, i) ensures OccursAt(s, w, i + 1) {
      assert s[i + 1..i + 1 + |w|] == s[1..][i..i + |w|];
    }
    forall i | OccursAt(s, w, i) ensures i > 0 && OccursAt(s[1..], w, i - 1) {
      assert s[1..][i - 1..i - 1 + |w|] == s[i..i + |w|];
    }
  }

  /** A substring of `s` found at a known position is contained in `s`. */
  lemma ContainsAt(s: string, w: string, i: nat)
    requires i + |w| <= |s| && s[i..i + |w|] == w
    ensures Contains(s, w)
  {
    assert OccursAt(s, w, i);
  }
}
