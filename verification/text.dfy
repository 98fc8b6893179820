/** Substring search on strings, as used by the feeding-issue rule. */
module Text {

  /** `pattern` occurs in `s` starting at index `i`. */
  ghost predicate OccursAt(s: string, pattern: string, i: int)
  {
    0 <= i && i + |pattern| <= |s| && s[i..i + |pattern|] == pattern
  }

  /** Case-sensitive substring test: does `pattern` occur anywhere in `s`?
      The empty pattern occurs in every string. */
  predicate Contains(s: string, pattern: string)
    decreases |s|
  {
    if |pattern| > |s| then false
    else if s[..|pattern|] == pattern then true
    else Contains(s[1..], pattern)
  }

  /** Shifting the start of the text by one shifts every occurrence by one. */
  lemma OccursAtTail(s: string, pattern: string, j: int)
    requires |s| > 0 && 0 <= j
    ensures OccursAt(s[1..], pattern, j) <==> OccursAt(s, pattern, j + 1)
  {
    if 0 <= j && j + |pattern| <= |s| - 1 {
      assert s[1..][j..j + |pattern|] == s[j + 1..j + 1 + |pattern|];
    }
  }

  /** `Contains` agrees with the index-based definition of an occurrence. */
  lemma {:induction false} ContainsIff(s: string, pattern: string)
    ensures Contains(s, pattern) <==> exists i :: OccursAt(s, pattern, i)
    decreases |s|
  {
    if |pattern| > |s| {
      assert forall i :: !OccursAt(s, pattern, i);
    } else if s[..|pattern|] == pattern {
      assert OccursAt(s, pattern, 0);
    } else {
      ContainsIff(s[1..], pattern);
      if Contains(s[1..], pattern) {
        var j :| OccursAt(s[1..], pattern, j);
        OccursAtTail(s, pattern, j);
      } else {
        forall i | OccursAt(s, pattern, i)
          ensures false
        {
          assert i != 0;
          OccursAtTail(s, pattern, i - 1);
        }
      }
    }
  }

  /** A text that lacks the first character of a non-empty pattern cannot contain it. */
  lemma {:induction false} MissingFirstCharacter(s: string, pattern: string)
    requires |pattern| > 0
    requires pattern[0] !in s
    ensures !Contains(s, pattern)
    decreases |s|
  {
    if |pattern| <= |s| {
      assert forall c :: c in s[1..] ==> c in s;
      MissingFirstCharacter(s[1..], pattern);
    }
  }

  /** A text that begins with the pattern contains it. */
  lemma StartsWith(s: string, pattern: string)
    requires |pattern| <= |s| && s[..|pattern|] == pattern
    ensures Contains(s, pattern)
  {
  }
}
