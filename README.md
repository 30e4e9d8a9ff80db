# Word-chain game engine

A Dafny model of the game engine of *Connected by Letters*, a React Native word-chain game.
The whole app lives in `App.js`. The player is shown a prompt word and must type a word from the
word list that starts with the prompt's last letter. An accepted word becomes the next prompt
and earns letter points.

There are three modes:
- **Casual** has no lives.
- **Score** gives 5 lives.
- **Challenge** gives 3 lives and also demands a minimum word length of 3, 4 or 5, re-rolled
  after every accepted word.

A wrong submission costs a life. Losing the last life opens the game-over screen, which records
a high score.

The model has five modules:

- `Words` (words.dfy) covers the string operations the engine relies on:
  - `toLowerCase`, restricted to ASCII;
  - `trim()` and the blank-input test;
  - the first-letter and last-letter slices;
  - `String.prototype.includes`, proved to be substring containment;
  - the `.some(entry => entry.includes(w))` search over a word list;
  - a "no duplicates" predicate.
- `Scoring` (scoring.dfy) holds the letter-value table, the word score as a function, and the
  scoring loop of `calculateScore` as a method proved to compute that function.
- `Draws` (draws.dfy) covers the two uses of `Math.random()`: picking a word-list index, and
  rolling Challenge's minimum length. The random number is a parameter `r` with `0 <= r < 1`.
- `Validation` (validation.dfy) states the rules a submission goes through as one function
  `Classify`. The rules apply in the source's order: blank input, chain mismatch, unknown word,
  already used, too short. The five notice flags of the source become one `Outcome` value.
- `Engine` (engine.dfy) holds the class `Game`, whose fields are the app's state variables:
  - per-mode prompts, scores and used-word lists;
  - the two life counters, the minimum length and the shared word history;
  - the two high scores and the two "game started" flags;
  - the typed input and the current mode;
  - a flag for the game-over screen.

  Each handler is a method that is one atomic step on that state:
  - `calculateScore`, `lifeCheck`, `newGamePreparation`;
  - `checkLetter` and the ENTER and CLEAR keys;
  - the three mode buttons of the home screen;
  - the game-over screen's effects and its Return button.

  The invariant `Valid()` is kept by every step. It says:
  - every mode's round is in order: each used word is a catalog word, no word is used twice,
    each word chains from the previous one, and the prompt is the last accepted word;
  - the history has no duplicates;
  - the minimum length is 0, 3, 4 or 5, and it is 3, 4 or 5 whenever Challenge is the current
    mode or is marked as started;
  - lives stay within their bounds;
  - the game-over screen is showing only when the current mode has run out of lives.
- `Scenarios` (scenarios.dfy) plays short sessions through the engine. They show what the home
  screen's "Reset game" button does after a change of mode (see Findings).

Some behaviours of the code are easy to assume otherwise; the model follows the code:
- **Scoring case.** The typed text is scored as typed, not lower-cased, so upper-case letters
  score 0 (`Scoring.NoLowercaseScoresZero`).
- **Used and history checks.** Both are substring tests, not exact membership: "cat" counts as
  used after "concatenate" (`Words.SubstringIsFound`, `Validation.SubstringCountsAsUsed`). The
  history is still free of duplicates (`Words.AppendUnfoundKeepsDistinct`).
- **Casual entry.** The Casual button does not reset its round; it only switches mode.
- **High scores.** There is no persistence. High scores and the history are plain state. The
  high score is compared when the game-over screen opens, not when the life is lost.

The variables `lastLetter` and `wordListCheck` of `checkLetter` are undeclared in the source. They are modelled as locals of `CheckLetter`.

## Model

| member | source | states |
|---|---|---|
| Words.LowerChar | App.js:182 | an ASCII capital becomes its small letter (code + 32); every other character is unchanged; the result is never a capital |
| Words.Lower | App.js:209 | `toLowerCase()` keeps the length, leaves no capital letter, turns each ASCII capital into its small letter and keeps every other character in place |
| Words.LowerIdempotent | App.js:261-275 | a prompt stored lower-cased is unchanged by lower-casing again |
| Words.LowerKeepsWhitespace | App.js:600 | lower-casing an input does not change whether it is all whitespace |
| Words.TrimStartFacts | App.js:600 | trimming the start removes only whitespace characters and leaves a suffix; it is empty exactly when the input is all whitespace, and otherwise starts with a non-whitespace character |
| Words.TrimEndFacts | App.js:600 | trimming the end removes only whitespace characters and leaves a prefix; it is empty exactly when the input is all whitespace, and otherwise ends with a non-whitespace character |
| Words.BlankIffAllWhitespace | App.js:600 | `trim() == ""` holds exactly when every character is whitespace |
| Words.FirstLetter | App.js:182 | `charAt(0).toLowerCase()` is empty exactly for the empty string, and otherwise the lower-cased one-character prefix |
| Words.LastLetter | App.js:186-202 | `slice(-1).toLowerCase()` is empty exactly for the empty string, and otherwise the lower-cased one-character suffix |
| Words.EndLettersIgnoreCase | App.js:182-206 | lower-casing a word first changes neither end letter, so chaining ignores case |
| Words.IncludesIff | App.js:213 | `includes` holds exactly when the needle occurs at some position of the string |
| Words.IncludesSelf | App.js:213 | every word contains itself |
| Words.SomeIncludesIff | App.js:213 | the `.some(... includes ...)` search succeeds exactly when some entry contains the word |
| Words.MemberIsFound | App.js:213 | a word already in the list is always found, so an exact repeat is rejected |
| Words.SubstringIsFound | App.js:213 | the converse fails: "cat" is found in ["concatenate"] without being a member |
| Words.SomeIncludesAppend | App.js:294-300 | searching a list extended by one entry searches the old list and that entry |
| Words.NoDuplicatesIff | App.js:294-300 | the recursive "no duplicates" equals the pairwise one: any two positions hold different words |
| Words.AppendUnfoundKeepsDistinct | App.js:294-300 | appending a word the search does not find keeps the history duplicate-free, and the word is then found |
| Scoring.LetterValue | App.js:124-156 | the value table: small letters are worth 1 to 10 points, and every other character (capitals included) 0 |
| Scoring.WordScore | App.js:119-158 | a word scores at most 10 points per character |
| Scoring.WordScoreAppend | App.js:119-158 | the score of a concatenation is the sum of the scores of its parts |
| Scoring.LowercaseWordScoresAtLeastLength | App.js:119-158 | a word of small letters scores at least one point per letter |
| Scoring.NoLowercaseScoresZero | App.js:119-158 | a word without small letters scores 0, because the table is case-sensitive |
| Scoring.TallyWord | App.js:119-158 | the character loop with its seven tests computes exactly the letter-value sum `WordScore` |
| Draws.DrawIndex | App.js:82-84 | `Math.floor(r * n)` for `0 <= r < 1` is a valid index into a list of `n` words |
| Draws.EveryIndexDrawable | App.js:82-84 | every index of the list can be drawn |
| Draws.RollMinimumLength | App.js:322 | `Math.floor(3 + r * 3)` is always 3, 4 or 5 |
| Draws.EveryLengthRollable | App.js:772 | each of 3, 4 and 5 can be rolled |
| Validation.AcceptedWordIsPlayable | App.js:206-275 | an accepted word meets every rule: the lower-cased input, non-empty, in the list, chained to the prompt, found in no used word, and at least the minimum length in Challenge |
| Validation.OutcomeIgnoresCase | App.js:182-213 | lower-casing the input first gives the same outcome |
| Validation.MismatchOutranksLaterRules | App.js:206 | a non-blank input that does not chain is a chain mismatch, whatever the later rules say |
| Validation.UnknownOutranksUsedAndLength | App.js:209 | a chaining word missing from the list is unknown, whether or not it was used and whatever its length |
| Validation.RepeatIsRejected | App.js:213-231 | a known, chaining word already used this round is rejected as used, before the length rule |
| Validation.TooShortOnlyInChallenge | App.js:237 | outside Challenge a submission is never too short |
| Validation.SubstringCountsAsUsed | App.js:213 | "cat" is rejected as used after "concatenate" although it was never played |
| Validation.ApplePromptExamples | App.js:206-275 | after "apple", "elephant" is accepted and "tiger" is a chain mismatch |
| Validation.TooShortExample | App.js:237-255 | in Challenge with minimum length 5, the chaining word "eel" is too short |
| Engine.PerMode.Set | App.js:163-175 | updating one mode's value leaves the other two modes' values unchanged |
| Engine.ChainedIff | App.js:206 | the recursive chain condition equals the pairwise one: each used word starts with its predecessor's last letter |
| Engine.AcceptExtendsRound | App.js:258-338 | accepting a new, chaining list word keeps a round in order, with that word as the new prompt |
| Engine.RoundsOkSet | App.js:261-275 | replacing one mode's round by a round in order keeps all rounds in order |
| Engine.FreshRound | App.js:416-442 | a list word with no used words is a round in order |
| Engine.Game.constructor | App.js:17-86 | initial state: a random list word as each mode's prompt, empty rounds and history, scores 0, 5 and 3 lives, no mode, both games not started |
| Engine.Game.PressLetter | App.js:474 | a letter key appends its letter to the input |
| Engine.Game.PressClear | App.js:594 | CLEAR empties the input |
| Engine.Game.CalculateScore | App.js:117-176 | the word's score is added to the current mode's score only; other modes keep theirs |
| Engine.Game.LifeCheck | App.js:397-413 | takes exactly one life in Score or Challenge when it is non-zero, never goes below 0, and changes nothing in Casual |
| Engine.Game.NewGamePreparation | App.js:416-442 | the current mode gets score 0, no used words and a random list word as prompt, plus 5 lives in Score or 3 in Challenge; other modes are untouched |
| Engine.Game.RejectSubmission | App.js:213-231 | a rejection takes a life, clears the input and keeps the invariant |
| Engine.Game.RecordInHistory | App.js:294-300 | the word joins the history only when no entry contains it; the history stays duplicate-free and afterwards some entry contains the word as a substring (after "concatenate", an accepted "cat" is not itself added) |
| Engine.Game.AdvanceRound | App.js:258-338 | the accepted word becomes the mode's prompt and closes its used list; Challenge rolls a new minimum length; other modes are untouched |
| Engine.Game.AcceptSubmission | App.js:258-338 | acceptance: new prompt, used list extended by exactly the word, score raised by the typed text's score, history updated, minimum length re-rolled only in Challenge, no life lost |
| Engine.Game.CheckLetter | App.js:179-394 | the outcome is `Classify` on the current mode's round; an acceptance has the acceptance effect; every rejection keeps rounds, scores, history and minimum length and takes a life |
| Engine.Game.Enter | App.js:598-625 | ENTER: a blank input is rejected and kept; anything else goes through CheckLetter; the game-over screen opens exactly when a rejection takes the last life |
| Engine.Game.EnterCasualMode | App.js:672-681 | the Casual button switches to Casual with no lives, leaving every round as it was |
| Engine.Game.EnterScoreMode | App.js:689-741 | first entry marks Score as started; Continue changes no round; Reset prepares a new game for the mode current before the switch (as written) |
| Engine.Game.EnterScoreModeCorrected | App.js:689-741 | as above, but Reset starts Score over with 5 lives and score 0 |
| Engine.Game.EnterChallengeMode | App.js:744-799 | first entry marks Challenge as started and rolls the minimum length; Continue changes nothing; Reset rolls the minimum length and prepares a new game for the mode current before the switch (as written) |
| Engine.Game.EnterChallengeModeCorrected | App.js:744-799 | as above, but Reset starts Challenge over with 3 lives and score 0 |
| Engine.Game.ShowGameOver | App.js:998-1045 | the finished mode is no longer marked as started; its high score is replaced only by a strictly greater score, so high scores never decrease |
| Engine.Game.ReturnFromGameOver | App.js:1058-1062 | Return prepares a new game for the finished mode and leaves the game-over screen |
| Scenarios.StaleScoreReset | App.js:708-721 | Score and a blank ENTER, Challenge and a blank ENTER, then Score with Reset: Score still has 4 lives, while Challenge, down to 2, was restocked to 3 |
| Scenarios.FreshScoreReset | App.js:708-721 | the same session with the corrected button: Score has 5 lives again |
| Scenarios.StaleChallengeReset | App.js:763-780 | Challenge, a blank ENTER, Score, then Challenge with Reset: Challenge still has 2 lives, and only the minimum length was rolled again |
| Scenarios.FreshChallengeReset | App.js:763-780 | the same session with the corrected button: Challenge has 3 lives again |

## Left out

- Screens, styles, the keyboard layout, audio and the dictionary lookup are not modelled. They
  are rendering, foreign calls and a network fetch. The only navigation kept is the game-over
  screen opening and closing (`gameOver`).
- The Return buttons of the mode screens and the word-history screens only navigate. They
  change no engine state.
- The notice flags and their 1000 ms timers are not modelled. Each submission's single
  `Outcome` takes their place.
- `Math.random()` is not modelled. Each use takes a real draw in `[0, 1)` as a parameter; there
  is no distribution.
- `Draws.RollMinimumLength`: `r * n` and `3 + r * 3` are computed in exact real arithmetic,
  not in IEEE doubles. In doubles, `Math.floor(3 + r * 3)` is 6 for the largest double below 1,
  because the sum rounds up to 6, so the bound 3 to 5 holds only for the real computation.
  `Draws.DrawIndex` is likewise computed on reals.
- The word list JSON is not part of this model. The catalog is a non-empty parameter `words`.
- `Words.LowerChar`: lower-cases ASCII capitals only, not the full Unicode `toLowerCase`.
- `Words.Lower`: applies `Words.LowerChar` to each character, so it is ASCII-only in the same way.
- String lengths count Dafny characters, not UTF-16 code units. The two differ only for
  characters outside the Basic Multilingual Plane.
- React's state semantics are not modelled. Handlers are atomic steps. Setters batched within
  one handler read the values from before the handler, and the model keeps that: for example,
  `newGamePreparation` inside the reset buttons sees the previous mode.
- Effects that run when a screen mounts, rather than when their dependency changes, are not
  modelled separately. `Enter` opens the game-over screen when a life counter changes to 0, and
  `ShowGameOver` runs once when the screen opens.
- Lives cannot be lost on the game-over screen itself. The engine's handlers require
  `!gameOver`, since the keyboard is not shown there.
- The initial started flags are the string `'false'`. In the source's loose comparison with
  `true` this acts as not started, and the model starts them as `false`.

## Findings

| source | as written | input that shows it | evidently intended | confidence | as-written member | corrected member |
|---|---|---|---|---|---|---|
| App.js:708-721 | "Reset game" on the Score button calls `newGamePreparation()` while the current mode is still the previous one, so it resets that mode, not Score | start Score, lose a life, enter Challenge and lose a life, return and choose Score → Reset game: Score keeps 4 lives and its round, Challenge is restocked from 2 to 3 lives | the alert's "create a new game" restarts Score: 5 lives, score 0, new prompt | not executed | Engine.Game.EnterScoreMode, Scenarios.StaleScoreReset | Engine.Game.EnterScoreModeCorrected, Scenarios.FreshScoreReset |
| App.js:763-780 | "Reset game" on the Challenge button has the same order: it resets the previous mode and only re-rolls Challenge's minimum length | start Challenge, lose a life, enter Score, return and choose Challenge → Reset game: Challenge keeps 2 lives | the reset restarts Challenge: 3 lives, score 0, new prompt, new minimum length | not executed | Engine.Game.EnterChallengeMode, Scenarios.StaleChallengeReset | Engine.Game.EnterChallengeModeCorrected, Scenarios.FreshChallengeReset |
