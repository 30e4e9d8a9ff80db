/** The per-word score: the sum, over the word's characters, of a fixed
    letter-value table. */
module Scoring {

  /** The value of one character: 1 for e a i o n r t l s u, 2 for d g,
      3 for b c m p, 4 for f h v w y, 5 for k, 8 for j x, 10 for q z, and 0
      for anything else (upper-case letters, digits, spaces, ...). Every
      lower-case letter is worth between 1 and 10 points. */
  function LetterValue(c: char): (v: nat)
    ensures v <= 10
    ensures 'a' <= c <= 'z' ==> 1 <= v
    ensures !('a' <= c <= 'z') ==> v == 0
  {
    match c
    case 'e' | 'a' | 'i' | 'o' | 'n' | 'r' | 't' | 'l' | 's' | 'u' => 1
    case 'd' | 'g' => 2
    case 'b' | 'c' | 'm' | 'p' => 3
    case 'f' | 'h' | 'v' | 'w' | 'y' => 4
    case 'k' => 5
    case 'j' | 'x' => 8
    case 'q' | 'z' => 10
    case _ => 0
  }

  /** The score of a word: the letter values of its characters, summed from
      left to right. */
  function WordScore(w: string): (total: nat)
    ensures total <= 10 * |w|
  {
    if |w| == 0 then 0 else WordScore(w[..|w| - 1]) + LetterValue(w[|w| - 1])
  }

  /** The score of two words written one after the other is the sum of
      their scores. */
  lemma {:induction false} WordScoreAppend(a: string, b: string)
    ensures WordScore(a + b) == WordScore(a) + WordScore(b)
  {
    if |b| == 0 {
      assert a + b == a;
    } else {
      var ab := a + b;
      assert ab[..|ab| - 1] == a + b[..|b| - 1];
      assert ab[|ab| - 1] == b[|b| - 1];
      WordScoreAppend(a, b[..|b| - 1]);
    }
  }

  /** A word made of lower-case letters scores at least one point per
      letter. */
  lemma {:induction false} LowercaseWordScoresAtLeastLength(w: string)
    requires forall i :: 0 <= i < |w| ==> 'a' <= w[i] <= 'z'
    ensures |w| <= WordScore(w)
  {
    if |w| > 0 {
      LowercaseWordScoresAtLeastLength(w[..|w| - 1]);
    }
  }

  /** A word with no lower-case letter at all scores nothing: the table is
      not consulted case-insensitively. */
  lemma {:induction false} NoLowercaseScoresZero(w: string)
    requires forall i :: 0 <= i < |w| ==> !('a' <= w[i] <= 'z')
    ensures WordScore(w) == 0
  {
    if |w| > 0 {
      NoLowercaseScoresZero(w[..|w| - 1]);
    }
  }

  /** The scoring loop: for each character, one test per group of letters
      adds that group's value to the running total. */
  method TallyWord(word: string) returns (total: nat)
    ensures total == WordScore(word)
  {
    total := 0;
    var i := 0;
    while i < |word|
      invariant 0 <= i <= |word|
      invariant total == WordScore(word[..i])
    {
      var c := word[i];
      if c == 'e' || c == 'a' || c == 'i' || c == 'o' || c == 'n'
        || c == 'r' || c == 't' || c == 'l' || c == 's' || c == 'u' {
        total := total + 1;
      }
      if c == 'd' || c == 'g' {
        total := total + 2;
      }
      if c == 'b' || c == 'c' || c == 'm' || c == 'p' {
        total := total + 3;
      }
      if c == 'f' || c == 'h' || c == 'v' || c == 'w' || c == 'y' {
        total := total + 4;
      }
      if c == 'k' {
        total := total + 5;
      }
      if c == 'j' || c == 'x' {
        total := total + 8;
      }
      if c == 'q' || c == 'z' {
        total := total + 10;
      }
      assert word[..i + 1][..i] == word[..i];
      i := i + 1;
    }
    assert word[..i] == word;
  }
}
