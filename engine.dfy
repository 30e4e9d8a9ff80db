/** The game engine: the state the app keeps for its three game modes
    (Casual, Score, Challenge), the ENTER key with the word check behind it,
    the life counter, new-game preparation, the home screen's mode buttons
    and the game-over screen's effects. Each handler is one atomic step on
    an object of class Game. */
module Engine {
  import opened Words
  import opened Scoring
  import opened Draws
  import opened Validation

  datatype Option<T> = None | Some(value: T)

  datatype GameMode = Casual | Score | Challenge

  /** One value per game mode; the app keeps a separate state variable per
      mode for the prompt, the score and the used-word list. */
  datatype PerMode<T> = PerMode(casual: T, score: T, challenge: T)
  {
    function Get(m: GameMode): T
    {
      match m
      case Casual => casual
      case Score => score
      case Challenge => challenge
    }

    function Set(m: GameMode, v: T): (r: PerMode<T>)
      ensures r.Get(m) == v
      ensures forall k :: k != m ==> r.Get(k) == Get(k)
    {
      match m
      case Casual => this.(casual := v)
      case Score => this.(score := v)
      case Challenge => this.(challenge := v)
    }
  }

  /** The two buttons of the "new game or continue?" alert on the home
      screen. */
  datatype AlertChoice = ContinueGame | ResetGame

  /** Each word of a round chains from the one accepted before it: the
      last word chains from the one before, and so does the rest. */
  predicate Chained(round: seq<string>)
  {
    |round| <= 1
    || (LastLetter(round[|round| - 2]) == FirstLetter(round[|round| - 1])
        && Chained(round[..|round| - 1]))
  }

  /** The recursive definition says the same as the pairwise one: every
      word starts with the letter its predecessor ends with. */
  lemma {:induction false} ChainedIff(round: seq<string>)
    ensures Chained(round) <==>
      forall i :: 0 < i < |round| ==> LastLetter(round[i - 1]) == FirstLetter(round[i])
  {
    if |round| > 1 {
      var p := round[..|round| - 1];
      ChainedIff(p);
      if Chained(round) {
        forall i | 0 < i < |round| ensures LastLetter(round[i - 1]) == FirstLetter(round[i]) {
          if i < |round| - 1 {
            assert round[i - 1] == p[i - 1] && round[i] == p[i];
          }
        }
      }
      if forall i :: 0 < i < |round| ==> LastLetter(round[i - 1]) == FirstLetter(round[i]) {
        forall i | 0 < i < |p| ensures LastLetter(p[i - 1]) == FirstLetter(p[i]) {
          assert round[i - 1] == p[i - 1] && round[i] == p[i];
        }
      }
    }
  }

  /** A round of play: the prompt and the used words come from the word
      list, no word was used twice, each word chains from the previous one
      and the prompt is the last accepted word. */
  predicate RoundOk(prompt: string, used: seq<string>, words: seq<string>)
  {
    && prompt in words
    && (forall w :: w in used ==> w in words)
    && NoDuplicates(used)
    && Chained(used)
    && (|used| > 0 ==> prompt == used[|used| - 1])
  }

  /** Accepting a new catalog word that chains from the prompt extends a
      round: the word becomes the prompt and closes the used list. */
  lemma AcceptExtendsRound(prompt: string, used: seq<string>, words: seq<string>, w: string)
    requires RoundOk(prompt, used, words)
    requires w in words && w !in used && LastLetter(prompt) == FirstLetter(w)
    ensures RoundOk(w, used + [w], words)
  {
    var u := used + [w];
    assert u[..|used|] == used;
  }

  /** Every mode's round is in order. */
  predicate RoundsOk(prompts: PerMode<string>, usedLists: PerMode<seq<string>>, words: seq<string>)
  {
    forall m :: RoundOk(prompts.Get(m), usedLists.Get(m), words)
  }

  /** Replacing one mode's round by a round in order keeps every round in
      order. */
  lemma RoundsOkSet(prompts: PerMode<string>, usedLists: PerMode<seq<string>>,
                    words: seq<string>, m: GameMode, prompt: string, used: seq<string>)
    requires RoundsOk(prompts, usedLists, words) && RoundOk(prompt, used, words)
    ensures RoundsOk(prompts.Set(m, prompt), usedLists.Set(m, used), words)
  {
    forall k ensures RoundOk(prompts.Set(m, prompt).Get(k), usedLists.Set(m, used).Get(k), words) {
      if k != m {
        assert RoundOk(prompts.Get(k), usedLists.Get(k), words);
      }
    }
  }

  /** A fresh round: a catalog word as prompt and nothing used yet. */
  lemma FreshRound(prompt: string, words: seq<string>)
    requires prompt in words
    ensures RoundOk(prompt, [], words)
  {
  }

  class Game {
    /** The word list the prompts are drawn from and words are checked
        against. */
    const words: seq<string>
    /** The mode last entered from the home screen; none before the first. */
    var currentGameMode: Option<GameMode>
    /** Whether the ENTER key may skip the life counter (Casual or no mode). */
    var isCasualMode: bool
    /** The word each mode's next submission must chain from. */
    var prompts: PerMode<string>
    /** The text typed on the virtual keyboard so far. */
    var inputWord: string
    var scores: PerMode<nat>
    var highScore: nat
    var challengeHighScore: nat
    var scoreModeGameStarted: bool
    var challengeModeGameStarted: bool
    /** The words accepted in each mode's current round, in order. */
    var usedLists: PerMode<seq<string>>
    /** Challenge mode's minimum word length; 0 until Challenge is entered. */
    var minimumLength: int
    /** Every word accepted in any mode since the app started. */
    var wordHistory: seq<string>
    var lives: nat
    var challengeLives: nat
    /** Whether the game-over screen is showing. */
    var gameOver: bool

    ghost predicate Valid()
      reads this`prompts, this`usedLists, this`wordHistory, this`minimumLength,
            this`currentGameMode, this`challengeModeGameStarted, this`isCasualMode,
            this`lives, this`challengeLives, this`gameOver
    {
      && |words| > 0
      && RoundsOk(prompts, usedLists, words)
      && NoDuplicates(wordHistory)
      && (forall w :: w in wordHistory ==> w in words)
      && (minimumLength == 0 || 3 <= minimumLength <= 5)
      && ((currentGameMode == Some(Challenge) || challengeModeGameStarted) ==> 3 <= minimumLength <= 5)
      && lives <= 5 && challengeLives <= 3
      && isCasualMode == (currentGameMode == None || currentGameMode == Some(Casual))
      && (gameOver ==> || (currentGameMode == Some(Score) && lives == 0)
                       || (currentGameMode == Some(Challenge) && challengeLives == 0))
    }

    /** The state when the app starts: one random word-list entry as the
        prompt of each mode, empty rounds, 5 and 3 lives, no mode yet. */
    constructor (catalog: seq<string>, casualDraw: real, scoreDraw: real, challengeDraw: real)
      requires |catalog| > 0
      requires 0.0 <= casualDraw < 1.0 && 0.0 <= scoreDraw < 1.0 && 0.0 <= challengeDraw < 1.0
      ensures Valid() && words == catalog
      ensures prompts == PerMode(catalog[DrawIndex(casualDraw, |catalog|)],
                                 catalog[DrawIndex(scoreDraw, |catalog|)],
                                 catalog[DrawIndex(challengeDraw, |catalog|)])
      ensures currentGameMode == None && isCasualMode && inputWord == "" && !gameOver
      ensures scores == PerMode(0, 0, 0) && highScore == 0 && challengeHighScore == 0
      ensures !scoreModeGameStarted && !challengeModeGameStarted
      ensures usedLists == PerMode([], [], []) && wordHistory == [] && minimumLength == 0
      ensures lives == 5 && challengeLives == 3
    {
      words := catalog;
      currentGameMode := None;
      isCasualMode := true;
      prompts := PerMode(catalog[DrawIndex(casualDraw, |catalog|)],
                         catalog[DrawIndex(scoreDraw, |catalog|)],
                         catalog[DrawIndex(challengeDraw, |catalog|)]);
      inputWord := "";
      scores := PerMode(0, 0, 0);
      highScore, challengeHighScore := 0, 0;
      scoreModeGameStarted, challengeModeGameStarted := false, false;
      usedLists := PerMode([], [], []);
      minimumLength := 0;
      wordHistory := [];
      lives, challengeLives := 5, 3;
      gameOver := false;
    }

    /** The life counter step: the current mode's lives go down by one
        unless already 0; Casual (and no mode) has no lives to lose. */
    twostate predicate LifeChecked()
      reads this`currentGameMode, this`lives, this`challengeLives
    {
      && lives == (if currentGameMode == Some(Score) && old(lives) != 0
                   then old(lives) - 1 else old(lives))
      && challengeLives == (if currentGameMode == Some(Challenge) && old(challengeLives) != 0
                            then old(challengeLives) - 1 else old(challengeLives))
    }

    /** A rejection leaves every round, the history and the minimum length
        as they were. */
    twostate predicate RoundsKept()
      reads this`prompts, this`usedLists, this`scores, this`wordHistory, this`minimumLength
    {
      && prompts == old(prompts) && usedLists == old(usedLists) && scores == old(scores)
      && wordHistory == old(wordHistory) && minimumLength == old(minimumLength)
    }

    /** The effect of accepting `w` (typed as `input`) in mode `m`: it
        becomes the prompt, closes the round's used list, earns the score of
        the typed text, joins the history unless an entry already contains
        it, and in Challenge the minimum length is rolled again. Only mode
        `m` changes; no life is lost. */
    twostate predicate WordAccepted(m: GameMode, w: string, input: string, draw: real)
      requires 0.0 <= draw < 1.0
      reads this`prompts, this`usedLists, this`scores, this`wordHistory,
            this`minimumLength, this`lives, this`challengeLives
    {
      && prompts == old(prompts).Set(m, w)
      && usedLists == old(usedLists).Set(m, old(usedLists).Get(m) + [w])
      && scores == old(scores).Set(m, old(scores).Get(m) + WordScore(input))
      && wordHistory == (if SomeIncludes(old(wordHistory), w) then old(wordHistory)
                         else old(wordHistory) + [w])
      && minimumLength == (if m == Challenge then RollMinimumLength(draw) else old(minimumLength))
      && lives == old(lives) && challengeLives == old(challengeLives)
    }

    /** The effect of preparing a new game in mode `m`: score 0, no used
        words, a random word-list entry as the prompt, and full lives (5 in
        Score, 3 in Challenge). Other modes are untouched; with no mode
        nothing changes. */
    twostate predicate NewGamePrepared(m: Option<GameMode>, draw: real)
      requires |words| > 0 && 0.0 <= draw < 1.0
      reads this`prompts, this`usedLists, this`scores, this`lives, this`challengeLives
    {
      match m
      case None =>
        && prompts == old(prompts) && usedLists == old(usedLists) && scores == old(scores)
        && lives == old(lives) && challengeLives == old(challengeLives)
      case Some(k) =>
        && prompts == old(prompts).Set(k, words[DrawIndex(draw, |words|)])
        && usedLists == old(usedLists).Set(k, [])
        && scores == old(scores).Set(k, 0)
        && lives == (if k == Score then 5 else old(lives))
        && challengeLives == (if k == Challenge then 3 else old(challengeLives))
    }

    /** A letter key of the virtual keyboard. */
    method PressLetter(c: char)
      requires 'a' <= c <= 'z'
      modifies this`inputWord
      ensures inputWord == old(inputWord) + [c]
    {
      inputWord := inputWord + [c];
    }

    /** The CLEAR key. */
    method PressClear()
      modifies this`inputWord
      ensures inputWord == ""
    {
      inputWord := "";
    }

    /** Scores `word` and adds the points to the current mode's score. */
    method CalculateScore(word: string)
      modifies this`scores
      ensures currentGameMode.Some? ==>
        scores == old(scores).Set(currentGameMode.value,
                                  old(scores).Get(currentGameMode.value) + WordScore(word))
      ensures currentGameMode.None? ==> scores == old(scores)
    {
      var scoreCalculation := TallyWord(word);
      match currentGameMode
      case Some(m) =>
        scores := scores.Set(m, scores.Get(m) + scoreCalculation);
      case None =>
    }

    /** Takes a life in Score or Challenge mode, never below 0. */
    method LifeCheck()
      requires Valid()
      modifies this`lives, this`challengeLives
      ensures Valid() && LifeChecked()
    {
      match currentGameMode
      case Some(Score) =>
        if lives != 0 {
          lives := lives - 1;
        }
      case Some(Challenge) =>
        if challengeLives != 0 {
          challengeLives := challengeLives - 1;
        }
      case _ =>
    }

    /** Resets the current mode for a new game. */
    method NewGamePreparation(draw: real)
      requires Valid() && !gameOver && 0.0 <= draw < 1.0
      modifies this`prompts, this`usedLists, this`scores, this`lives, this`challengeLives
      ensures Valid() && NewGamePrepared(currentGameMode, draw)
    {
      match currentGameMode
      case Some(Casual) =>
        scores := scores.Set(Casual, 0);
        usedLists := usedLists.Set(Casual, []);
        prompts := prompts.Set(Casual, words[DrawIndex(draw, |words|)]);
      case Some(Score) =>
        lives := 5;
        scores := scores.Set(Score, 0);
        usedLists := usedLists.Set(Score, []);
        prompts := prompts.Set(Score, words[DrawIndex(draw, |words|)]);
      case Some(Challenge) =>
        challengeLives := 3;
        scores := scores.Set(Challenge, 0);
        usedLists := usedLists.Set(Challenge, []);
        prompts := prompts.Set(Challenge, words[DrawIndex(draw, |words|)]);
      case None =>
    }

    /** What every rejection does besides raising its notice: take a life
        and clear the input. */
    method RejectSubmission()
      requires Valid()
      modifies this`lives, this`challengeLives, this`inputWord
      ensures Valid() && LifeChecked() && inputWord == ""
    {
      LifeCheck();
      inputWord := "";
    }

    /** Adds an accepted word to the history unless an entry already
        contains it; the history stays free of duplicates and afterwards
        contains the word. */
    method RecordInHistory(w: string)
      requires Valid() && w in words
      modifies this`wordHistory
      ensures Valid()
      ensures wordHistory == (if SomeIncludes(old(wordHistory), w) then old(wordHistory)
                              else old(wordHistory) + [w])
      ensures SomeIncludes(wordHistory, w)
    {
      if !SomeIncludes(wordHistory, w) {
        AppendUnfoundKeepsDistinct(wordHistory, w);
        wordHistory := wordHistory + [w];
      }
    }

    /** The round part of an accepted submission in mode `m`: the word
        becomes the prompt and closes the used list, the input is cleared
        and Challenge rolls a new minimum length. */
    method AdvanceRound(m: GameMode, lowered: string, draw: real)
      requires Valid() && currentGameMode == Some(m) && 0.0 <= draw < 1.0
      requires lowered in words && lowered !in usedLists.Get(m)
      requires LastLetter(prompts.Get(m)) == FirstLetter(lowered)
      modifies this`prompts, this`usedLists, this`minimumLength, this`inputWord
      ensures Valid()
      ensures prompts == old(prompts).Set(m, lowered)
      ensures usedLists == old(usedLists).Set(m, old(usedLists).Get(m) + [lowered])
      ensures minimumLength == (if m == Challenge then RollMinimumLength(draw) else old(minimumLength))
      ensures inputWord == ""
    {
      AcceptExtendsRound(prompts.Get(m), usedLists.Get(m), words, lowered);
      RoundsOkSet(prompts, usedLists, words, m, lowered, usedLists.Get(m) + [lowered]);
      prompts := prompts.Set(m, lowered);
      inputWord := "";
      if m == Challenge {
        minimumLength := RollMinimumLength(draw);
      }
      usedLists := usedLists.Set(m, usedLists.Get(m) + [lowered]);
    }

    /** What an accepted submission does in mode `m`: the round advances,
        the typed text is scored and the history gains the word unless an
        entry already contains it. */
    method AcceptSubmission(m: GameMode, lowered: string, input: string, draw: real)
      requires Valid() && currentGameMode == Some(m) && !gameOver && 0.0 <= draw < 1.0
      requires lowered in words && lowered !in usedLists.Get(m)
      requires LastLetter(prompts.Get(m)) == FirstLetter(lowered)
      modifies this`prompts, this`usedLists, this`scores, this`wordHistory,
               this`minimumLength, this`inputWord
      ensures Valid()
      ensures WordAccepted(m, lowered, input, draw) && SomeIncludes(wordHistory, lowered)
      ensures inputWord == ""
    {
      AdvanceRound(m, lowered, draw);
      CalculateScore(input);
      RecordInHistory(lowered);
    }

    /** Checks a non-blank submission against the current mode's round and
        either accepts it or rejects it with a lost life; the input is
        cleared either way. `draw` is used only to re-roll Challenge's
        minimum length after an accepted word. */
    method CheckLetter(input: string, draw: real) returns (outcome: Outcome)
      requires Valid() && currentGameMode.Some? && !gameOver
      requires !IsBlank(input) && 0.0 <= draw < 1.0
      modifies this`prompts, this`usedLists, this`scores, this`wordHistory,
               this`minimumLength, this`lives, this`challengeLives, this`inputWord
      ensures Valid()
      ensures var m := currentGameMode.value;
        outcome == Classify(input, old(prompts).Get(m), words, old(usedLists).Get(m),
                            m == Challenge, old(minimumLength))
      ensures outcome.Accepted? ==>
        WordAccepted(currentGameMode.value, outcome.word, input, draw)
        && SomeIncludes(wordHistory, outcome.word)
      ensures !outcome.Accepted? ==> RoundsKept() && LifeChecked()
      ensures inputWord == ""
    {
      var m := currentGameMode.value;
      var firstInputLetter := FirstLetter(input);
      var lastLetter := LastLetter(prompts.Get(m));
      var wordListCheck := usedLists.Get(m);
      if lastLetter == firstInputLetter {
        if Lower(input) in words {
          if SomeIncludes(wordListCheck, Lower(input)) {
            outcome := AlreadyUsed;
            RejectSubmission();
          } else if |input| < minimumLength && m == Challenge {
            outcome := TooShort;
            RejectSubmission();
          } else {
            outcome := Accepted(Lower(input));
            AcceptedWordIsPlayable(input, prompts.Get(m), words, wordListCheck,
                                   m == Challenge, minimumLength);
            AcceptSubmission(m, Lower(input), input, draw);
          }
        } else {
          outcome := UnknownWord;
          RejectSubmission();
        }
      } else {
        outcome := ChainMismatch;
        RejectSubmission();
      }
    }

    /** The ENTER key: a blank input costs a life outside Casual and is
        kept; anything else goes through CheckLetter. When the step takes
        the last life of Score or Challenge, the game-over screen opens. */
    method Enter(draw: real) returns (outcome: Outcome)
      requires Valid() && currentGameMode.Some? && !gameOver && 0.0 <= draw < 1.0
      modifies this`prompts, this`usedLists, this`scores, this`wordHistory,
               this`minimumLength, this`lives, this`challengeLives, this`inputWord,
               this`gameOver
      ensures Valid()
      ensures var m := currentGameMode.value;
        outcome == Classify(old(inputWord), old(prompts).Get(m), words, old(usedLists).Get(m),
                            m == Challenge, old(minimumLength))
      ensures outcome.Accepted? ==>
        WordAccepted(currentGameMode.value, outcome.word, old(inputWord), draw)
        && SomeIncludes(wordHistory, outcome.word)
      ensures !outcome.Accepted? ==> RoundsKept() && LifeChecked()
      ensures inputWord == (if outcome == EmptyInput then old(inputWord) else "")
      ensures gameOver <==>
        !outcome.Accepted?
        && (|| (currentGameMode == Some(Score) && old(lives) == 1)
            || (currentGameMode == Some(Challenge) && old(challengeLives) == 1))
    {
      var livesBefore, challengeLivesBefore := lives, challengeLives;
      if IsBlank(inputWord) {
        outcome := EmptyInput;
        if !isCasualMode {
          LifeCheck();
        }
      } else {
        outcome := CheckLetter(inputWord, draw);
      }
      // The keyboard's effects watch both life counters and open the
      // game-over screen when one of them changes to 0.
      if (lives == 0 && livesBefore != 0) || (challengeLives == 0 && challengeLivesBefore != 0) {
        gameOver := true;
      }
    }

    /** The Casual Mode button: switches to Casual and leaves its round as
        it was. */
    method EnterCasualMode()
      requires Valid() && !gameOver
      modifies this`currentGameMode, this`isCasualMode
      ensures Valid() && currentGameMode == Some(Casual) && isCasualMode
    {
      currentGameMode := Some(Casual);
      isCasualMode := true;
    }

    /** The Score Mode button, as written. A first entry only marks the game
        as started. Once started, the alert offers to continue or reset; the
        reset prepares a new game BEFORE switching the mode, so it resets
        the mode that was current until then, not Score. */
    method EnterScoreMode(choice: AlertChoice, draw: real)
      requires Valid() && !gameOver && 0.0 <= draw < 1.0
      modifies this`currentGameMode, this`isCasualMode, this`scoreModeGameStarted,
               this`prompts, this`usedLists, this`scores, this`lives, this`challengeLives
      ensures Valid() && currentGameMode == Some(Score) && !isCasualMode && scoreModeGameStarted
      ensures !old(scoreModeGameStarted) || choice == ContinueGame ==>
        && prompts == old(prompts) && usedLists == old(usedLists) && scores == old(scores)
        && lives == old(lives) && challengeLives == old(challengeLives)
      ensures old(scoreModeGameStarted) && choice == ResetGame ==>
        NewGamePrepared(old(currentGameMode), draw)
    {
      if scoreModeGameStarted {
        match choice
        case ContinueGame =>
          currentGameMode := Some(Score);
          isCasualMode := false;
        case ResetGame =>
          NewGamePreparation(draw);
          isCasualMode := false;
          currentGameMode := Some(Score);
      } else {
        currentGameMode := Some(Score);
        scoreModeGameStarted := true;
        isCasualMode := false;
      }
    }

    /** The Score Mode button as its alert intends it: "Reset game" starts
        Score over, with 5 lives, score 0 and a new prompt. */
    method EnterScoreModeCorrected(choice: AlertChoice, draw: real)
      requires Valid() && !gameOver && 0.0 <= draw < 1.0
      modifies this`currentGameMode, this`isCasualMode, this`scoreModeGameStarted,
               this`prompts, this`usedLists, this`scores, this`lives, this`challengeLives
      ensures Valid() && currentGameMode == Some(Score) && !isCasualMode && scoreModeGameStarted
      ensures !old(scoreModeGameStarted) || choice == ContinueGame ==>
        && prompts == old(prompts) && usedLists == old(usedLists) && scores == old(scores)
        && lives == old(lives) && challengeLives == old(challengeLives)
      ensures old(scoreModeGameStarted) && choice == ResetGame ==>
        NewGamePrepared(Some(Score), draw) && lives == 5 && scores.score == 0
    {
      if scoreModeGameStarted {
        currentGameMode := Some(Score);
        isCasualMode := false;
        if choice == ResetGame {
          NewGamePreparation(draw);
        }
      } else {
        currentGameMode := Some(Score);
        scoreModeGameStarted := true;
        isCasualMode := false;
      }
    }

    /** The Challenge Mode button, as written. A first entry marks the game
        as started and rolls the minimum length. Once started, the alert
        offers to continue or reset; the reset rolls a new minimum length
        but, like Score's, prepares a new game for the mode that was
        current until then. */
    method EnterChallengeMode(choice: AlertChoice, promptDraw: real, lengthDraw: real)
      requires Valid() && !gameOver
      requires 0.0 <= promptDraw < 1.0 && 0.0 <= lengthDraw < 1.0
      modifies this`currentGameMode, this`isCasualMode, this`challengeModeGameStarted,
               this`minimumLength, this`prompts, this`usedLists, this`scores, this`lives,
               this`challengeLives
      ensures Valid() && currentGameMode == Some(Challenge) && !isCasualMode
      ensures challengeModeGameStarted && 3 <= minimumLength <= 5
      ensures !old(challengeModeGameStarted) || choice == ContinueGame ==>
        && prompts == old(prompts) && usedLists == old(usedLists) && scores == old(scores)
        && lives == old(lives) && challengeLives == old(challengeLives)
      ensures old(challengeModeGameStarted) && choice == ContinueGame ==>
        minimumLength == old(minimumLength)
      ensures !old(challengeModeGameStarted) || choice == ResetGame ==>
        minimumLength == RollMinimumLength(lengthDraw)
      ensures old(challengeModeGameStarted) && choice == ResetGame ==>
        NewGamePrepared(old(currentGameMode), promptDraw)
    {
      if challengeModeGameStarted {
        match choice
        case ContinueGame =>
          currentGameMode := Some(Challenge);
          isCasualMode := false;
        case ResetGame =>
          NewGamePreparation(promptDraw);
          isCasualMode := false;
          minimumLength := RollMinimumLength(lengthDraw);
          currentGameMode := Some(Challenge);
          isCasualMode := false;
      } else {
        currentGameMode := Some(Challenge);
        challengeModeGameStarted := true;
        isCasualMode := false;
        minimumLength := RollMinimumLength(lengthDraw);
      }
    }

    /** The Challenge Mode button as its alert intends it: "Reset game"
        starts Challenge over, with 3 lives, score 0, a new prompt and a new
        minimum length. */
    method EnterChallengeModeCorrected(choice: AlertChoice, promptDraw: real, lengthDraw: real)
      requires Valid() && !gameOver
      requires 0.0 <= promptDraw < 1.0 && 0.0 <= lengthDraw < 1.0
      modifies this`currentGameMode, this`isCasualMode, this`challengeModeGameStarted,
               this`minimumLength, this`prompts, this`usedLists, this`scores, this`lives,
               this`challengeLives
      ensures Valid() && currentGameMode == Some(Challenge) && !isCasualMode
      ensures challengeModeGameStarted && 3 <= minimumLength <= 5
      ensures !old(challengeModeGameStarted) || choice == ContinueGame ==>
        && prompts == old(prompts) && usedLists == old(usedLists) && scores == old(scores)
        && lives == old(lives) && challengeLives == old(challengeLives)
      ensures old(challengeModeGameStarted) && choice == ContinueGame ==>
        minimumLength == old(minimumLength)
      ensures !old(challengeModeGameStarted) || choice == ResetGame ==>
        minimumLength == RollMinimumLength(lengthDraw)
      ensures old(challengeModeGameStarted) && choice == ResetGame ==>
        NewGamePrepared(Some(Challenge), promptDraw) && challengeLives == 3
        && scores.challenge == 0
    {
      if challengeModeGameStarted {
        currentGameMode := Some(Challenge);
        isCasualMode := false;
        if choice == ResetGame {
          NewGamePreparation(promptDraw);
          minimumLength := RollMinimumLength(lengthDraw);
        }
      } else {
        currentGameMode := Some(Challenge);
        challengeModeGameStarted := true;
        isCasualMode := false;
        minimumLength := RollMinimumLength(lengthDraw);
      }
    }

    /** The game-over screen's effects when it opens: the finished mode is
        no longer marked as started, and its score replaces the high score
        only when strictly greater. High scores never go down. */
    method ShowGameOver()
      requires Valid() && gameOver
      modifies this`scoreModeGameStarted, this`challengeModeGameStarted,
               this`highScore, this`challengeHighScore
      ensures Valid()
      ensures currentGameMode == Some(Score) ==>
        && !scoreModeGameStarted && challengeModeGameStarted == old(challengeModeGameStarted)
        && highScore == (if scores.score > old(highScore) then scores.score else old(highScore))
        && challengeHighScore == old(challengeHighScore)
      ensures currentGameMode == Some(Challenge) ==>
        && !challengeModeGameStarted && scoreModeGameStarted == old(scoreModeGameStarted)
        && challengeHighScore == (if scores.challenge > old(challengeHighScore)
                                  then scores.challenge else old(challengeHighScore))
        && highScore == old(highScore)
      ensures old(highScore) <= highScore && old(challengeHighScore) <= challengeHighScore
    {
      match currentGameMode {
        case Some(Score) =>
          scoreModeGameStarted := false;
        case Some(Challenge) =>
          challengeModeGameStarted := false;
        case _ =>
      }

      var displayScoreResults, displayHighScoreResults := 0, 0;
      match currentGameMode {
        case Some(Score) =>
          displayScoreResults, displayHighScoreResults := scores.score, highScore;
        case Some(Challenge) =>
          displayScoreResults, displayHighScoreResults := scores.challenge, challengeHighScore;
        case _ =>
      }

      if displayScoreResults > displayHighScoreResults {
        match currentGameMode {
          case Some(Score) =>
            highScore := displayScoreResults;
          case Some(Challenge) =>
            challengeHighScore := displayScoreResults;
          case _ =>
        }
      }
    }

    /** The game-over screen's Return button: prepares a new game for the
        finished mode and leaves the screen. */
    method ReturnFromGameOver(draw: real)
      requires Valid() && gameOver && 0.0 <= draw < 1.0
      modifies this`gameOver, this`prompts, this`usedLists, this`scores, this`lives,
               this`challengeLives
      ensures Valid() && !gameOver && NewGamePrepared(currentGameMode, draw)
    {
      gameOver := false;
      NewGamePreparation(draw);
    }
  }
}
