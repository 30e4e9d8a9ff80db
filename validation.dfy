/** The rules a submitted word goes through when the player presses ENTER,
    as one function from the submission and the current round to a tagged
    outcome. The engine (module Engine) is proved to follow it. */
module Validation {
  import opened Words

  /** What became of a submission. The source signals each rejection with
      its own notice flag; here each submission has exactly one outcome. */
  datatype Outcome =
    | Accepted(word: string)  // the lower-cased input, now the prompt
    | EmptyInput              // the input trims to nothing
    | ChainMismatch           // first letter differs from the prompt's last
    | UnknownWord             // not in the word list
    | AlreadyUsed             // an earlier word of this round contains it
    | TooShort                // Challenge only: shorter than the minimum

  /** The rules in the order the source applies them; the first that fails
      decides the outcome. `used` is the current mode's list of accepted
      words and `challenge` tells whether the current mode is Challenge. */
  function Classify(input: string, prompt: string, catalog: seq<string>,
                    used: seq<string>, challenge: bool, minimumLength: int): Outcome
  {
    if IsBlank(input) then EmptyInput
    else if LastLetter(prompt) != FirstLetter(input) then ChainMismatch
    else if Lower(input) !in catalog then UnknownWord
    else if SomeIncludes(used, Lower(input)) then AlreadyUsed
    else if |input| < minimumLength && challenge then TooShort
    else Accepted(Lower(input))
  }

  /** An accepted word is a lower-case catalog word, not empty, as long as
      the input, chained to the prompt, new to the round (not even part of
      an earlier word) and, in Challenge, at least the minimum length. */
  lemma AcceptedWordIsPlayable(input: string, prompt: string, catalog: seq<string>,
                               used: seq<string>, challenge: bool, minimumLength: int)
    requires Classify(input, prompt, catalog, used, challenge, minimumLength).Accepted?
    ensures var w := Classify(input, prompt, catalog, used, challenge, minimumLength).word;
      && w == Lower(input) && w == Lower(w)
      && |w| == |input| > 0
      && w in catalog
      && LastLetter(prompt) == FirstLetter(w)
      && !SomeIncludes(used, w) && w !in used
      && (challenge ==> minimumLength <= |w|)
  {
    var w := Lower(input);
    BlankIffAllWhitespace(input);
    LowerIdempotent(input);
    EndLettersIgnoreCase(input);
    if w in used {
      MemberIsFound(used, w);
    }
  }

  /** Validation does not depend on letter case: lower-casing the input
      first gives the same outcome. */
  lemma OutcomeIgnoresCase(input: string, prompt: string, catalog: seq<string>,
                           used: seq<string>, challenge: bool, minimumLength: int)
    ensures Classify(Lower(input), prompt, catalog, used, challenge, minimumLength)
         == Classify(input, prompt, catalog, used, challenge, minimumLength)
  {
    var w := Lower(input);
    BlankIffAllWhitespace(input);
    BlankIffAllWhitespace(w);
    LowerKeepsWhitespace(input);
    EndLettersIgnoreCase(input);
    LowerIdempotent(input);
    assert IsBlank(w) == IsBlank(input);
    assert FirstLetter(w) == FirstLetter(input);
    assert Lower(w) == w && |w| == |input|;
  }

  /** Rule order: once the input is not blank, a first letter that does not
      chain is reported as a chain mismatch, whatever the word list, the
      used words, the mode and the minimum length. */
  lemma MismatchOutranksLaterRules(input: string, prompt: string,
                                   catalog: seq<string>, used: seq<string>,
                                   challenge: bool, minimumLength: int)
    requires !IsBlank(input) && LastLetter(prompt) != FirstLetter(input)
    ensures Classify(input, prompt, catalog, used, challenge, minimumLength) == ChainMismatch
  {
  }

  /** Rule order: a word that chains but is not in the word list is
      reported as unknown, whether or not it was used and whatever its
      length. */
  lemma UnknownOutranksUsedAndLength(input: string, prompt: string,
                                     catalog: seq<string>, used: seq<string>,
                                     challenge: bool, minimumLength: int)
    requires !IsBlank(input) && LastLetter(prompt) == FirstLetter(input)
    requires Lower(input) !in catalog
    ensures Classify(input, prompt, catalog, used, challenge, minimumLength) == UnknownWord
  {
  }

  /** A known, chaining word that was already accepted this round is
      rejected as already used, before any length rule. */
  lemma RepeatIsRejected(input: string, prompt: string, catalog: seq<string>,
                         used: seq<string>, challenge: bool, minimumLength: int)
    requires !IsBlank(input) && LastLetter(prompt) == FirstLetter(input)
    requires Lower(input) in catalog && Lower(input) in used
    ensures Classify(input, prompt, catalog, used, challenge, minimumLength) == AlreadyUsed
  {
    MemberIsFound(used, Lower(input));
  }

  /** The length rule exists only in Challenge mode. */
  lemma TooShortOnlyInChallenge(input: string, prompt: string, catalog: seq<string>,
                                used: seq<string>, minimumLength: int)
    ensures Classify(input, prompt, catalog, used, false, minimumLength) != TooShort
  {
  }

  /** The used-word test is substring containment: after "concatenate",
      the catalog word "cat" is rejected as already used although it was
      never played. */
  lemma SubstringCountsAsUsed()
    ensures Classify("cat", "magic", ["cat", "concatenate"], ["concatenate"], false, 0)
         == AlreadyUsed
    ensures "cat" !in ["concatenate"]
  {
    SubstringIsFound();
    assert Lower("cat") == "cat";
    BlankIffAllWhitespace("cat");
    assert !IsWhitespace("cat"[0]);
  }

  /** Worked example: with prompt "apple", "elephant" chains and is
      accepted; "tiger" does not chain. */
  lemma ApplePromptExamples()
    ensures Classify("elephant", "apple", ["apple", "elephant", "tiger"], [], false, 0)
         == Accepted("elephant")
    ensures Classify("tiger", "apple", ["apple", "elephant", "tiger"], [], true, 3)
         == ChainMismatch
  {
    assert Lower("elephant") == "elephant";
    BlankIffAllWhitespace("elephant");
    BlankIffAllWhitespace("tiger");
    assert !IsWhitespace("elephant"[0]) && !IsWhitespace("tiger"[0]);
  }

  /** Worked example: in Challenge with minimum length 5, the chaining
      catalog word "eel" is too short. */
  lemma TooShortExample()
    ensures Classify("eel", "apple", ["apple", "eel"], ["apple"], true, 5) == TooShort
  {
    assert Lower("eel") == "eel";
    BlankIffAllWhitespace("eel");
    assert !IsWhitespace("eel"[0]);
  }
}
