/**
 * String predicates used by the app: Python's substring test `k in s` and
 * `str.lower()`, restricted to ASCII letters.
 */
module Text {

  /** `k` occurs in `s` starting at position `i`. */
  ghost predicate OccursAt(k: string, s: string, i: nat)
  {
    i + |k| <= |s| && s[i..i + |k|] == k
  }

  /** `k` occurs in `s` as a contiguous run of characters (the meaning of `k in s`). */
  ghost predicate Occurs(k: string, s: string)
  {
    exists i: nat :: OccursAt(k, s, i)
  }

  /** Executable substring test: tries every start position from the left. */
  function Contains(s: string, k: string): bool
    decreases |s|
  {
    if |k| > |s| then false
    else if k <= s then true
    else Contains(s[1..], k)
  }

  /** The scan finds `k` exactly when `k` occurs somewhere in `s`. */
  lemma {:induction false} ContainsOccurs(s: string, k: string)
    ensures Contains(s, k) <==> Occurs(k, s)
    decreases |s|
  {
    if |k| > |s| {
    } else if k <= s {
      assert OccursAt(k, s, 0);
    } else {
      ContainsOccurs(s[1..], k);
      if Occurs(k, s) {
        var i: nat :| OccursAt(k, s, i);
        assert i != 0;
        assert s[1..][i - 1..i - 1 + |k|] == k;
        assert OccursAt(k, s[1..], i - 1);
      }
      if Contains(s[1..], k) {
        var i: nat :| OccursAt(k, s[1..], i);
        assert s[i + 1..i + 1 + |k|] == k;
        assert OccursAt(k, s, i + 1);
      }
    }
  }

  /** `k` placed between any two strings occurs right after the first one. */
  lemma OccursBetween(a: string, k: string, b: string)
    ensures OccursAt(k, a + k + b, |a|)
  {
    assert (a + k + b)[|a|..|a| + |k|] == k;
  }

  /** An occurrence of `k` at `i` puts each character of `k` at its offset from `i`. */
  lemma OccurrenceChars(k: string, s: string)
    ensures forall i: nat, m :: OccursAt(k, s, i) && 0 <= m < |k| ==> s[i + m] == k[m]
  {
    forall i: nat, m | OccursAt(k, s, i) && 0 <= m < |k|
      ensures s[i + m] == k[m]
    {
      assert s[i..i + |k|][m] == s[i + m];
    }
  }

  /** A character of `k` that `s` lacks keeps `k` out of `s`. */
  lemma MissingChar(k: string, s: string, m: nat)
    requires m < |k| && k[m] !in s
    ensures !Occurs(k, s)
  {
    OccurrenceChars(k, s);
  }

  predicate IsUpper(c: char)
  {
    'A' <= c <= 'Z'
  }

  /** ASCII lower-casing of one character; every other character is kept. */
  function LowerChar(c: char): (d: char)
    ensures !IsUpper(d)
    ensures IsUpper(c) ==> d as int == c as int + 32
    ensures !IsUpper(c) ==> d == c
  {
    if IsUpper(c) then (c as int + 32) as char else c
  }

  /**
   * ASCII lower-casing of a string: same length, no capital left, each
   * character lower-cased in place, and a string without capitals unchanged.
   */
  function Lower(s: string): (r: string)
    ensures |r| == |s|
    ensures forall i :: 0 <= i < |r| ==> !IsUpper(r[i])
    ensures forall i :: 0 <= i < |s| ==> r[i] == LowerChar(s[i])
    ensures (forall i :: 0 <= i < |s| ==> !IsUpper(s[i])) ==> r == s
  {
    seq(|s|, i requires 0 <= i < |s| => LowerChar(s[i]))
  }

  /** Lower-casing twice is lower-casing once. */
  lemma LowerIdempotent(s: string)
    ensures Lower(Lower(s)) == Lower(s)
  {
    assert forall i :: 0 <= i < |s| ==> Lower(Lower(s))[i] == Lower(s)[i];
  }
}
