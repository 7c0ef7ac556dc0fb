/** The records the ear-training engine passes around: training modes, game
    modes, difficulty tiers, play modes, settings, logged results, the
    challenge scorecard and the user's progress. */
module Types {

  datatype Option<+T> = None | Some(value: T)

  /** Which kind of stimulus a training session asks about. */
  datatype TrainingMode = NoteMode | IntervalMode | ChordMode | ScaleMode

  /** Challenge mode keeps lives and score; zen mode only reveals answers. */
  datatype GameMode = Challenge | Zen

  datatype DifficultyLevel = Beginner | Elementary | Intermediate | Advanced

  datatype PlayMode = Harmonic | Ascending | Descending

  /** The user's settings. `octaveRange` is the inclusive pair [low, high];
      the three `enabled*` lists are optional and never consulted by the core. */
  datatype TrainingSettings = TrainingSettings(
    noteRange: seq<string>,
    octaveRange: (int, int),
    playMode: PlayMode,
    difficulty: DifficultyLevel,
    enabledIntervals: Option<seq<string>>,
    enabledChords: Option<seq<string>>,
    enabledScales: Option<seq<string>>)

  /** One answered question, as appended to the result log. `timestamp` is in
      milliseconds. */
  datatype TrainingResult = TrainingResult(
    mode: TrainingMode,
    gameMode: GameMode,
    correct: bool,
    answer: string,
    userAnswer: string,
    timestamp: int,
    difficulty: DifficultyLevel)

  /** The challenge scorecard. The score is kept exactly, in tenths of a point. */
  datatype ChallengeState = ChallengeState(
    lives: int,
    streak: nat,
    maxStreak: nat,
    correctCount: nat,
    totalCount: nat,
    scoreTenths: nat)

  datatype UserProgress = UserProgress(
    unlockedModes: seq<TrainingMode>,
    unlockedDifficulties: seq<DifficultyLevel>,
    totalChallengesCompleted: int,
    achievements: seq<string>)

  /** A pitched note: a pitch-class name and an octave. */
  datatype Note = Note(name: string, octave: int)

  /** A question: the name of the asked concept and the notes that realise it. */
  datatype Question = Question(name: string, notes: seq<Note>)
}
