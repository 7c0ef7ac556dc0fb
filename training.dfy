/** The training screen shared by the note, interval and chord trainers: the
    current question, the challenge scorecard, game over and rating, and the
    effect of an answer on the result log and the user's progress. The three
    trainers differ only in their question generator and base score. */
module Training {
  import opened Types
  import opened MusicTheory
  import opened Questions
  import opened Storage

  /** The scorecard a challenge starts from: three lives, everything else zero. */
  const InitialState := ChallengeState(3, 0, 0, 0, 0, 0)

  /** Points of a correct challenge answer before the streak bonus. */
  function BaseScore(mode: TrainingMode): (b: nat)
    requires mode != ScaleMode
    ensures 10 <= b <= 20
  {
    match mode
    case NoteMode => 10
    case IntervalMode => 15
    case ChordMode => 20
  }

  // ---------------------------------------------------------------------------
  // Scorecard

  /** The challenge update of one answer. A correct answer adds
      `base * (1 + streak / 10)` points, kept here in tenths. */
  function Step(s: ChallengeState, correct: bool, base: nat): (t: ChallengeState)
    ensures t.totalCount == s.totalCount + 1
    ensures t.scoreTenths >= s.scoreTenths && t.maxStreak >= s.maxStreak
    ensures t.streak == 0 <==> !correct
    ensures s.streak <= s.maxStreak ==> t.streak <= t.maxStreak
  {
    if correct then
      var streak := s.streak + 1;
      s.(totalCount := s.totalCount + 1,
         correctCount := s.correctCount + 1,
         streak := streak,
         maxStreak := if s.maxStreak >= streak then s.maxStreak else streak,
         scoreTenths := s.scoreTenths + base * (10 + streak))
    else
      s.(totalCount := s.totalCount + 1, lives := s.lives - 1, streak := 0)
  }

  /** The scorecard laws of a running or finished challenge: correct answers
      never outnumber answers, the streak never exceeds the best streak nor
      the best streak the correct answers, and each wrong answer has cost a
      life out of three. */
  predicate Consistent(s: ChallengeState) {
    && s.correctCount <= s.totalCount
    && s.streak <= s.maxStreak <= s.correctCount
    && s.lives == 3 - (s.totalCount - s.correctCount)
    && 0 <= s.lives <= 3
  }

  /** What one answer does to a scorecard with lives left. */
  lemma StepEffect(s: ChallengeState, correct: bool, base: nat)
    requires Consistent(s) && s.lives > 0
    ensures var t := Step(s, correct, base);
      && Consistent(t)
      && t.totalCount == s.totalCount + 1
      && t.scoreTenths >= s.scoreTenths
      && (correct ==> t.correctCount == s.correctCount + 1 && t.streak == s.streak + 1 && t.lives == s.lives)
      && (correct ==> t.maxStreak == Max(s.maxStreak, t.streak))
      && (correct ==> t.scoreTenths == s.scoreTenths + base * 10 + base * t.streak)
      && (!correct ==> t.lives == s.lives - 1 && t.streak == 0)
      && (!correct ==> t.correctCount == s.correctCount && t.maxStreak == s.maxStreak && t.scoreTenths == s.scoreTenths)
  {
  }

  function Max(a: nat, b: nat): (m: nat)
    ensures m >= a && m >= b && (m == a || m == b)
  {
    if a >= b then a else b
  }

  /** A challenge played out: answers after the last life is lost are ignored,
      as the game-over guard of handleAnswer ignores them. */
  function Play(s: ChallengeState, answers: seq<bool>, base: nat): (t: ChallengeState)
    ensures s.lives <= 0 ==> t == s
    ensures s.totalCount <= t.totalCount <= s.totalCount + |answers|
    ensures t.scoreTenths >= s.scoreTenths
    decreases |answers|
  {
    if answers == [] || s.lives <= 0 then s
    else Play(Step(s, answers[0], base), answers[1..], base)
  }

  /** Through any sequence of answers the scorecard stays consistent and the
      score never decreases. */
  lemma {:induction false} PlayConsistent(s: ChallengeState, answers: seq<bool>, base: nat)
    requires Consistent(s)
    ensures Consistent(Play(s, answers, base))
    ensures Play(s, answers, base).scoreTenths >= s.scoreTenths
    decreases |answers|
  {
    if answers != [] && s.lives > 0 {
      StepEffect(s, answers[0], base);
      PlayConsistent(Step(s, answers[0], base), answers[1..], base);
    }
  }

  /** Every correct answer is worth at least `base * 11` tenths and at most
      `base * (10 + c)` tenths for the c-th one; so after c correct answers the
      score lies between `11 * base * c` and `base * (10 * c + c * (c + 1) / 2)`. */
  predicate ScoreBounded(s: ChallengeState, base: nat) {
    && base * (11 * s.correctCount) <= s.scoreTenths
    && 2 * s.scoreTenths <= base * (20 * s.correctCount + s.correctCount * (s.correctCount + 1))
  }

  lemma StepScoreBounded(s: ChallengeState, correct: bool, base: nat)
    requires Consistent(s) && s.lives > 0 && ScoreBounded(s, base)
    ensures ScoreBounded(Step(s, correct, base), base)
  {
    if correct {
      var c := s.correctCount;
      var k := s.streak + 1;
      var gain := base * (10 + k);
      assert Step(s, correct, base).scoreTenths == s.scoreTenths + gain;
      MulLeft(base, 11, 10 + k);
      MulLeft(base, 10 + k, 11 + c);
      Distribute(base, 11 * c, 11);
      Distribute(base, 20 * c + c * (c + 1), 2 * (11 + c));
      Distribute(base, 11 + c, 11 + c);
      assert 11 * (c + 1) == 11 * c + 11;
      assert 20 * (c + 1) + (c + 1) * (c + 2) == (20 * c + c * (c + 1)) + 2 * (11 + c);
    }
  }

  /** Multiplication by a natural keeps order (a hint at a nonlinear step). */
  lemma MulLeft(k: nat, a: nat, b: nat)
    requires a <= b
    ensures k * a <= k * b
  {
  }

  /** Multiplication distributes over addition (a hint at a nonlinear step). */
  lemma Distribute(k: nat, a: nat, b: nat)
    ensures k * (a + b) == k * a + k * b
  {
  }

  /** The score bounds hold through any sequence of answers from a fresh start. */
  lemma {:induction false} PlayScoreBounded(s: ChallengeState, answers: seq<bool>, base: nat)
    requires Consistent(s) && ScoreBounded(s, base)
    ensures ScoreBounded(Play(s, answers, base), base)
    decreases |answers|
  {
    if answers != [] && s.lives > 0 {
      StepEffect(s, answers[0], base);
      StepScoreBounded(s, answers[0], base);
      PlayScoreBounded(Step(s, answers[0], base), answers[1..], base);
    }
  }

  /** The game is over exactly when three answers have been wrong. */
  lemma GameOverAtThreeMisses(s: ChallengeState)
    requires Consistent(s)
    ensures s.lives <= 0 <==> s.totalCount - s.correctCount == 3
    ensures s.lives <= 0 ==> s.totalCount >= 3
  {
  }

  /** Three wrong answers from a fresh start end the game, whatever the base. */
  lemma ThreeMissesEndFreshGame(base: nat)
    ensures Play(InitialState, [false, false, false], base).lives == 0
    ensures Play(InitialState, [false, false, false], base).totalCount == 3
  {
    var s1 := Step(InitialState, false, base);
    var s2 := Step(s1, false, base);
    assert [false, false, false][1..] == [false, false];
    assert [false, false][1..] == [false];
    assert Play(InitialState, [false, false, false], base) == Play(s1, [false, false], base);
    assert Play(s1, [false, false], base) == Play(s2, [false], base);
  }

  // ---------------------------------------------------------------------------
  // Rating

  /** The grades endChallenge hands out, as the letters "S" to "F". */
  datatype Grade = S | A | B | C | D | F

  /** The end-of-challenge grade, on the unrounded accuracy `100 * correct / total`:
      S at 90% or more, then A, B, C, D at 80, 70, 60, 50, otherwise F. With no
      answers the accuracy is not a number, every comparison fails, and the
      grade is F. */
  function Rating(correct: nat, total: nat): (g: Grade)
    ensures total == 0 ==> g == F
    ensures total > 0 ==> (g == S <==> 100 * correct >= 90 * total)
    ensures g == F ==> total == 0 || 100 * correct < 50 * total
  {
    if total == 0 then F
    else if 100 * correct >= 90 * total then S
    else if 100 * correct >= 80 * total then A
    else if 100 * correct >= 70 * total then B
    else if 100 * correct >= 60 * total then C
    else if 100 * correct >= 50 * total then D
    else F
  }

  /** The rank of a grade, F lowest. */
  function Rank(g: Grade): nat {
    match g
    case S => 5
    case A => 4
    case B => 3
    case C => 2
    case D => 1
    case F => 0
  }

  /** A grade of rank at least k (1 to 5) is earned exactly by an accuracy of
      at least `40 + 10 * k` percent. */
  lemma RatingThresholds(correct: nat, total: nat, k: nat)
    requires total > 0 && 1 <= k <= 5
    ensures Rank(Rating(correct, total)) >= k <==> 100 * correct >= (40 + 10 * k) * total
  {
  }

  /** A higher accuracy never earns a lower grade. */
  lemma RatingMonotone(c1: nat, t1: nat, c2: nat, t2: nat)
    requires t1 > 0 && t2 > 0 && c1 * t2 <= c2 * t1
    ensures Rank(Rating(c1, t1)) <= Rank(Rating(c2, t2))
  {
    var k := Rank(Rating(c1, t1));
    if k >= 1 {
      RatingThresholds(c1, t1, k);
      ThresholdCarries(c1, t1, c2, t2, 40 + 10 * k);
      RatingThresholds(c2, t2, k);
    }
  }

  /** An accuracy threshold met by c1 / t1 is met by any c2 / t2 at least as high. */
  lemma ThresholdCarries(c1: nat, t1: nat, c2: nat, t2: nat, m: nat)
    requires t1 > 0 && t2 > 0 && c1 * t2 <= c2 * t1 && 100 * c1 >= m * t1
    ensures 100 * c2 >= m * t2
  {
    MulMonotone(m * t1, 100 * c1, t2);
    assert t2 * (m * t1) == (m * t2) * t1;
    assert t2 * (100 * c1) == 100 * (c1 * t2);
    MulMonotone(c1 * t2, c2 * t1, 100);
    assert 100 * (c2 * t1) == (100 * c2) * t1;
    if 100 * c2 < m * t2 {
      MulMonotone(100 * c2 + 1, m * t2, t1);
    }
  }

  /** The grade is taken on the unrounded accuracy: 179 of 200 is 89.5%, which
      would round to 90, yet it earns an A and not an S. */
  lemma UnroundedRatingExample()
    ensures RoundedPercent(179, 200) == 90
    ensures Rating(179, 200) == A
  {
    PercentBounds(179, 200);
  }

  // ---------------------------------------------------------------------------
  // The training screen

  function Completed(p: UserProgress): UserProgress {
    p.(totalChallengesCompleted := p.totalChallengesCompleted + 1)
  }

  /** The screen's invariant: a consistent scorecard, untouched in zen mode;
      the game is over exactly when no life is left, and then the rating is
      the grade of the scorecard. */
  predicate Scored(mode: TrainingMode, gameMode: GameMode, state: ChallengeState,
                   gameOver: bool, rating: Option<Grade>)
  {
    && mode != ScaleMode
    && Consistent(state)
    && (gameMode == Zen ==> state == InitialState)
    && (gameOver <==> state.lives <= 0)
    && (gameOver ==> rating == Some(Rating(state.correctCount, state.totalCount)))
    && (!gameOver ==> rating == None)
  }

  /** One mounted trainer with its props and its state variables. */
  class Session {
    const mode: TrainingMode
    const gameMode: GameMode
    const difficulty: DifficultyLevel
    const settings: TrainingSettings
    const store: Store

    var current: Option<Question>
    var showAnswer: bool
    var state: ChallengeState
    var gameOver: bool
    var rating: Option<Grade>

    /** The screen's invariant and a valid store. */
    predicate Valid()
      reads this, store
    {
      Scored(mode, gameMode, state, gameOver, rating) && store.Valid()
    }

    /** The first render: a fresh scorecard, no question yet. */
    constructor(mode: TrainingMode, gameMode: GameMode, difficulty: DifficultyLevel,
                settings: TrainingSettings, store: Store)
      requires mode != ScaleMode && store.Valid()
      ensures Valid()
      ensures this.mode == mode && this.gameMode == gameMode && this.difficulty == difficulty
      ensures this.settings == settings && this.store == store
      ensures current == None && !showAnswer && state == InitialState && !gameOver && rating == None
    {
      this.mode := mode;
      this.gameMode := gameMode;
      this.difficulty := difficulty;
      this.settings := settings;
      this.store := store;
      current := None;
      showAnswer := false;
      state := InitialState;
      gameOver := false;
      rating := None;
    }

    /** generateNewQuestion: a fresh question from the draws, answer hidden. */
    method NextQuestion(d: Draws)
      requires Valid() && ValidPitchPool(settings) && ValidDraws(d)
      modifies this
      ensures Valid()
      ensures current == Some(Generate(mode, difficulty, settings, d)) && !showAnswer
      ensures state == old(state) && gameOver == old(gameOver) && rating == old(rating)
    {
      current := Some(Generate(mode, difficulty, settings, d));
      showAnswer := false;
    }

    /** endChallenge: game over, the grade of the final scorecard, and one more
        completed challenge in the saved progress. */
    method EndChallenge()
      requires store.Valid()
      modifies this, store
      ensures store.Valid()
      ensures gameOver && rating == Some(Rating(state.correctCount, state.totalCount))
      ensures store.progress == Some(Completed(Loaded(old(store.progress))))
      ensures store.results == old(store.results) && store.settings == old(store.settings)
      ensures state == old(state) && current == old(current) && showAnswer == old(showAnswer)
    {
      gameOver := true;
      var accuracyRating := Rating(state.correctCount, state.totalCount);
      rating := Some(accuracyRating);
      var progress := store.GetUserProgress();
      progress := progress.(totalChallengesCompleted := progress.totalChallengesCompleted + 1);
      store.SaveUserProgress(progress);
    }

    /** The challenge branch of handleAnswer: the scorecard takes the step of
        the answer, field by field, and the challenge ends when no life is left. */
    method ScoreAnswer(isCorrect: bool)
      requires Valid() && gameMode == Challenge && !gameOver
      modifies this, store
      ensures Valid()
      ensures state == Step(old(state), isCorrect, BaseScore(mode))
      ensures store.progress == if state.lives <= 0 then Some(Completed(Loaded(old(store.progress)))) else old(store.progress)
      ensures store.results == old(store.results) && store.settings == old(store.settings)
      ensures current == old(current) && showAnswer == old(showAnswer)
    {
      var newState := state;
      newState := newState.(totalCount := newState.totalCount + 1);
      if isCorrect {
        newState := newState.(correctCount := newState.correctCount + 1);
        newState := newState.(streak := newState.streak + 1);
        newState := newState.(maxStreak := Max(newState.maxStreak, newState.streak));
        newState := newState.(scoreTenths := newState.scoreTenths + BaseScore(mode) * (10 + newState.streak));
      } else {
        newState := newState.(lives := newState.lives - 1);
        newState := newState.(streak := 0);
      }
      StepEffect(state, isCorrect, BaseScore(mode));
      assert newState == Step(state, isCorrect, BaseScore(mode));
      state := newState;
      if newState.lives <= 0 {
        EndChallenge();
      }
    }

    /** handleAnswer up to the unlock check: the answer is logged, then a
        challenge scorecard takes the step of the answer (ending the game when
        no life is left) and zen mode reveals the answer. */
    method Record(selected: string, now: int)
      requires Valid() && current.Some? && !gameOver
      modifies this, store
      ensures Valid()
      ensures var q := old(current).value;
        store.results == LastN(old(store.results) + [TrainingResult(mode, gameMode, selected == q.name, q.name, selected, now, difficulty)], Capacity)
      ensures gameMode == Challenge ==>
        && state == Step(old(state), selected == old(current).value.name, BaseScore(mode))
        && showAnswer == old(showAnswer)
        && store.progress == if state.lives <= 0 then Some(Completed(Loaded(old(store.progress)))) else old(store.progress)
      ensures gameMode == Zen ==> state == old(state) && showAnswer && store.progress == old(store.progress)
      ensures current == old(current) && store.settings == old(store.settings)
    {
      var q := current.value;
      var isCorrect := selected == q.name;
      store.SaveResult(TrainingResult(mode, gameMode, isCorrect, q.name, selected, now, difficulty));
      if gameMode == Challenge {
        ScoreAnswer(isCorrect);
      } else {
        showAnswer := true;
      }
    }

    /** handleAnswer at clock `now`. Ignored when the game is over or no
        question is showing. Otherwise the answer is logged; a challenge
        scorecard takes the step and the game ends when no life is left; zen
        mode reveals the answer; finally the unlock rules are applied to the
        saved progress. */
    method Answer(selected: string, now: int)
      requires Valid()
      modifies this, store
      ensures Valid()
      ensures old(current).None? || old(gameOver) ==>
        && state == old(state) && gameOver == old(gameOver) && rating == old(rating)
        && showAnswer == old(showAnswer)
        && store.results == old(store.results) && store.progress == old(store.progress)
      ensures old(current).Some? && !old(gameOver) ==>
        var q := old(current).value;
        var correct := selected == q.name;
        var ended := gameMode == Challenge && state.lives <= 0;
        && store.results == LastN(old(store.results) + [TrainingResult(mode, gameMode, correct, q.name, selected, now, difficulty)], Capacity)
        && (gameMode == Challenge ==> state == Step(old(state), correct, BaseScore(mode)) && showAnswer == old(showAnswer))
        && (gameMode == Zen ==> state == old(state) && showAnswer)
        && store.progress == Some(Unlocks(if ended then Completed(Loaded(old(store.progress))) else Loaded(old(store.progress)), store.results, now))
      ensures current == old(current) && store.settings == old(store.settings)
    {
      if current.None? || gameOver {
        return;
      }
      Record(selected, now);
      store.RefreshUnlocks(now);
    }

    /** A wrong answer in a running challenge costs a life and the streak. */
    method Miss(wrong: string, now: int)
      requires Valid() && gameMode == Challenge && !gameOver
      requires current.Some? && wrong != current.value.name
      modifies this, store
      ensures Valid()
      ensures state.lives == old(state).lives - 1 && state.totalCount == old(state).totalCount + 1
      ensures state.correctCount == old(state).correctCount && state.streak == 0
      ensures current == old(current)
    {
      Answer(wrong, now);
    }

    /** restartChallenge: a fresh scorecard, no game over, no rating, and a
        new question. */
    method Restart(d: Draws)
      requires Valid() && ValidPitchPool(settings) && ValidDraws(d)
      modifies this
      ensures Valid()
      ensures state == InitialState && !gameOver && rating == None
      ensures current == Some(Generate(mode, difficulty, settings, d)) && !showAnswer
    {
      state := InitialState;
      gameOver := false;
      rating := None;
      NextQuestion(d);
    }
  }

  /** Three wrong answers in a fresh challenge end it, graded F. */
  method ThreeMissesEndChallenge(store: Store, settings: TrainingSettings, d: Draws, now: int)
      returns (session: Session)
    requires ValidPitchPool(settings) && store.Valid() && ValidDraws(d)
    modifies store
    ensures session.gameOver && session.rating == Some(F) && session.state.lives == 0
  {
    session := new Session(NoteMode, Challenge, Beginner, settings, store);
    session.NextQuestion(d);
    var wrong := session.current.value.name + "?";
    assert wrong != session.current.value.name by {
      assert |wrong| != |session.current.value.name|;
    }
    session.Miss(wrong, now);
    session.Miss(wrong, now);
    session.Miss(wrong, now);
  }
}
