/** Python's substring test `word in s` on strings. */
module Text {

  /** `word` occurs in `s` starting at position `i`. */
  ghost predicate OccursAt(word: string, s: string, i: int) {
    0 <= i <= |s| - |word| && s[i..i + |word|] == word
  }

  /** `word` occurs in `s` at some position: the meaning of `word in s`. */
  ghost predicate OccursIn(word: string, s: string) {
    exists i :: OccursAt(word, s, i)
  }

  /** Substring test, scanning `s` from the left: `word` is a prefix here or occurs further on. */
  predicate Contains(s: string, word: string)
    decreases |s|
  {
    word <= s || (|s| > 0 && Contains(s[1..], word))
  }

  lemma SliceOfTail(s: string, i: int, j: int)
    requires 0 <= i <= j < |s|
    ensures s[1..][i..j] == s[i + 1..j + 1]
  {
    assert |s[1..][i..j]| == |s[i + 1..j + 1]|;
    forall k | 0 <= k < j - i
      ensures s[1..][i..j][k] == s[i + 1..j + 1][k]
    {
    }
  }

  /** The scan finds `word` exactly when `word` occurs somewhere in `s`. */
  lemma {:induction false} ContainsMeansOccurs(s: string, word: string)
    ensures Contains(s, word) <==> OccursIn(word, s)
  {
    if word <= s {
      assert OccursAt(word, s, 0);
    } else if |s| > 0 {
      ContainsMeansOccurs(s[1..], word);
      if OccursIn(word, s[1..]) {
        var i :| OccursAt(word, s[1..], i);
        SliceOfTail(s, i, i + |word|);
        assert OccursAt(word, s, i + 1);
      }
      if OccursIn(word, s) {
        var i :| OccursAt(word, s, i);
        if i > 0 {
          SliceOfTail(s, i - 1, i - 1 + |word|);
          assert OccursAt(word, s[1..], i - 1);
        }
      }
    }
  }

  /** A word whose first letter never appears in `s` is not found in it. */
  lemma {:induction false} FirstLetterAbsent(s: string, word: string)
    requires |word| > 0 && word[0] !in s
    ensures !Contains(s, word)
  {
    if |s| > 0 {
      assert s[0] != word[0];
      FirstLetterAbsent(s[1..], word);
    }
  }
}
