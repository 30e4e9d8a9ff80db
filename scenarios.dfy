/** Short sessions on a one-word catalog that show what the home screen's
    "Reset game" button does after the player has switched modes. */
module Scenarios {
  import opened Words
  import opened Engine

  /** As written: start Score, lose a life on an empty submission, visit
      Challenge and lose a life there too, come back to Score and choose
      "Reset game". The reset goes to Challenge, the mode that was current,
      so Score keeps its 4 lives (and its round), while Challenge is
      restocked from 2 to 3 lives. */
  method StaleScoreReset() returns (scoreLives: nat, challengeLives: nat)
    ensures scoreLives == 4 && challengeLives == 3
  {
    var g := new Game(["apple"], 0.0, 0.0, 0.0);
    g.EnterScoreMode(ContinueGame, 0.0);
    assert IsBlank(g.inputWord);
    var outcome := g.Enter(0.0);
    g.EnterChallengeMode(ContinueGame, 0.0, 0.0);
    assert IsBlank(g.inputWord);
    outcome := g.Enter(0.0);
    g.EnterScoreMode(ResetGame, 0.0);
    scoreLives, challengeLives := g.lives, g.challengeLives;
  }

  /** The same session with the reset applied to the mode being entered:
      Score starts over with 5 lives. */
  method FreshScoreReset() returns (scoreLives: nat)
    ensures scoreLives == 5
  {
    var g := new Game(["apple"], 0.0, 0.0, 0.0);
    g.EnterScoreModeCorrected(ContinueGame, 0.0);
    assert IsBlank(g.inputWord);
    var outcome := g.Enter(0.0);
    g.EnterChallengeModeCorrected(ContinueGame, 0.0, 0.0);
    g.EnterScoreModeCorrected(ResetGame, 0.0);
    scoreLives := g.lives;
  }

  /** As written, the other way round: start Challenge, lose a life, visit
      Score, come back to Challenge and choose "Reset game". Challenge keeps
      2 lives; only the minimum length is rolled again. */
  method StaleChallengeReset() returns (challengeLives: nat, minimumLength: int)
    ensures challengeLives == 2 && minimumLength == 4
  {
    var g := new Game(["apple"], 0.0, 0.0, 0.0);
    g.EnterChallengeMode(ContinueGame, 0.0, 0.0);
    assert IsBlank(g.inputWord);
    var outcome := g.Enter(0.0);
    g.EnterScoreMode(ContinueGame, 0.0);
    g.EnterChallengeMode(ResetGame, 0.0, 0.5);
    challengeLives, minimumLength := g.challengeLives, g.minimumLength;
  }

  /** The same session with the reset applied to Challenge: 3 lives again. */
  method FreshChallengeReset() returns (challengeLives: nat)
    ensures challengeLives == 3
  {
    var g := new Game(["apple"], 0.0, 0.0, 0.0);
    g.EnterChallengeModeCorrected(ContinueGame, 0.0, 0.0);
    assert IsBlank(g.inputWord);
    var outcome := g.Enter(0.0);
    g.EnterScoreModeCorrected(ContinueGame, 0.0);
    g.EnterChallengeModeCorrected(ResetGame, 0.0, 0.5);
    challengeLives := g.challengeLives;
  }
}
