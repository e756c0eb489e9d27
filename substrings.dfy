/**
 * Python's substring test `pattern in text`, which every branch of the voice
 * command dispatcher uses (maincode.py:81-94).
 */
module Substrings {

  /** `pattern in text`: tried at each starting position from the left. */
  predicate Contains(text: string, pattern: string)
    decreases |text|
  {
    |pattern| <= |text| && (text[..|pattern|] == pattern || Contains(text[1..], pattern))
  }

  /** `pattern` occurs in `text` starting at position `i`. */
  ghost predicate OccursAt(text: string, pattern: string, i: int)
  {
    0 <= i && i + |pattern| <= |text| && text[i..i + |pattern|] == pattern
  }

  /** The recursive search finds `pattern` exactly when it occurs somewhere. */
  lemma {:induction false} ContainsIffOccurs(text: string, pattern: string)
    ensures Contains(text, pattern) <==> exists i :: OccursAt(text, pattern, i)
    decreases |text|
  {
    if |pattern| <= |text| && text[..|pattern|] != pattern {
      ContainsIffOccurs(text[1..], pattern);
      if exists i :: OccursAt(text[1..], pattern, i) {
        var i :| OccursAt(text[1..], pattern, i);
        assert text[1..][i..i + |pattern|] == text[i + 1..i + 1 + |pattern|];
        assert OccursAt(text, pattern, i + 1);
      }
      if exists i :: OccursAt(text, pattern, i) {
        var i :| OccursAt(text, pattern, i);
        assert i != 0;
        assert text[1..][i - 1..i - 1 + |pattern|] == text[i..i + |pattern|];
        assert OccursAt(text[1..], pattern, i - 1);
      }
    } else if |pattern| <= |text| {
      assert OccursAt(text, pattern, 0);
    }
  }

  /** An occurrence at a known position is found by the search. */
  lemma ContainsAt(text: string, pattern: string, i: int)
    requires OccursAt(text, pattern, i)
    ensures Contains(text, pattern)
  {
    ContainsIffOccurs(text, pattern);
  }

  /** A text containing `middle` contains everything `middle` contains. */
  lemma ContainsTransitive(text: string, middle: string, pattern: string)
    requires Contains(text, middle) && Contains(middle, pattern)
    ensures Contains(text, pattern)
  {
    ContainsIffOccurs(text, middle);
    ContainsIffOccurs(middle, pattern);
    var i :| OccursAt(text, middle, i);
    var j :| OccursAt(middle, pattern, j);
    forall k | 0 <= k < |pattern|
      ensures text[i + j..i + j + |pattern|][k] == pattern[k]
    {
      assert pattern[k] == middle[j..j + |pattern|][k] == middle[j + k];
      assert middle[j + k] == text[i..i + |middle|][j + k];
    }
    ContainsAt(text, pattern, i + j);
  }
}
