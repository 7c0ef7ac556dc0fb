# Ear-training engine

A model of the core of an ear-training app. The app has four trainers: single
notes, intervals, chords and scales. The model covers the first three, in five
parts.

- **Music-theory tables** (`MusicTheory`, music_theory.dfy):
  - the twelve pitch classes;
  - the interval, chord and scale tables;
  - the four nested difficulty presets;
  - the uniform draw from a pool;
  - the "name + octave" note label.
- **Question generators** (`Questions`, questions.dfy): the note, interval and
  chord trainers draw a concept and a root. They realise the concept as notes
  with a modulo-12 wrap and an octave carry.
- **Training screen** (`Training`, training.dfy): one `Session` class stands
  for all three trainers. It has:
  - the current question;
  - the challenge scorecard (lives, streak, best streak, counts, score);
  - game over and the end-of-challenge grade;
  - the effect of an answer on the result log and the user's progress.

  The trainers differ only in their generator and their base score (10, 15 or 20).
- **Storage and statistics** (`Storage`, storage.dfy): a `Store` class holds
  three slots: the result log (the newest 1000 results), the progress record
  and the saved settings. Beside it are:
  - the order-preserving queries of the log;
  - the rounded accuracy;
  - per-mode statistics;
  - the weak-point ranking;
  - the accuracy trend;
  - the unlock rules.
- **Settings screen** (`SettingsScreen`, settings.dfy): the difficulty and
  play-mode handlers as record updates, and a `Screen` class that loads and
  saves the record.

The datatypes of the app's records are in `Types` (types.dfy).

Randomness, the clock and storage are modelled as follows:

- Every `Math.random()` is a draw `r` with `0 <= r < 1`, passed in.
  `getRandomItem` takes index `floor(r * length)`, exactly as the app does.
- `Date.now()` is a parameter `now`.
- Browser storage is the in-memory `Store`.

The score is kept exact, in tenths. A correct challenge answer with new streak
`k` adds `base * (10 + k)` tenths, which is `base * (1 + k / 10)` points.

The end-of-challenge grade compares the unrounded accuracy: 179 of 200 shows
as 90% but earns A (`UnroundedRatingExample`).

The weak-point sort is an insertion sort. Like the app's stable
`Array.prototype.sort`, it keeps rows of equal accuracy in tally order
(`SortByAccuracyStable`).

## Model

| member | source | states |
|---|---|---|
| MusicTheory.Notes | src/utils/musicTheory.ts:2 | twelve pairwise-distinct pitch-class names starting at C; each name is a letter A–G with an optional '#' |
| MusicTheory.IndexOf | src/components/IntervalTraining.tsx:47 | `indexOf`: -1 exactly when the name is absent; otherwise the first index holding the name |
| MusicTheory.PitchIndex | src/components/IntervalTraining.tsx:47 | a name of NOTES has an index below 12 that holds that name, i.e. its distance in semitones above C |
| MusicTheory.Lookup | src/components/IntervalTraining.tsx:41 | looking up a table by name yields None exactly when the name is not a key; a found value belongs to an entry with that key |
| MusicTheory.LookupAt | src/utils/musicTheory.ts:12-26 | in a table with distinct keys, looking up the i-th key yields the i-th value |
| MusicTheory.Intervals | src/utils/musicTheory.ts:12-26 | 13 distinct names with pairwise-distinct semitone counts, each at most 12 |
| MusicTheory.IntervalSemitones | src/components/IntervalTraining.tsx:41 | `INTERVALS[name]` is the table's value for the name, at most 12 |
| MusicTheory.Chords | src/utils/musicTheory.ts:29-43 | 13 distinct names; each offset list starts at 0, rises strictly, stays below 12 and has 3 or 4 notes |
| MusicTheory.Scales | src/utils/musicTheory.ts:46-59 | 12 distinct names; each offset list starts at 0, rises strictly, stays below 12 and has 5 to 7 degrees |
| MusicTheory.ChordOffsets | src/components/ChordTraining.tsx:41 | `CHORDS[name]` is the table's offset list for the name, and it starts at 0, rises and stays within an octave |
| MusicTheory.DifficultyPreset | src/utils/musicTheory.ts:62-91 | every preset has non-empty catalogs; its names are all keys of NOTES, INTERVALS, CHORDS and SCALES; low octave <= high octave |
| MusicTheory.BeginnerWellFormed | src/utils/musicTheory.ts:63-69 | the beginner preset is well formed |
| MusicTheory.ElementaryWellFormed | src/utils/musicTheory.ts:70-76 | the elementary preset is well formed |
| MusicTheory.IntermediateWellFormed | src/utils/musicTheory.ts:77-83 | the intermediate preset is well formed |
| MusicTheory.AdvancedWellFormed | src/utils/musicTheory.ts:84-90 | the advanced preset is well formed |
| MusicTheory.ElementaryCoversBeginner | src/utils/musicTheory.ts:63-76 | the elementary preset offers every pitch, octave, interval, chord and scale of the beginner preset |
| MusicTheory.IntermediateCoversElementary | src/utils/musicTheory.ts:70-83 | the intermediate preset offers everything of the elementary preset |
| MusicTheory.AdvancedCoversIntermediate | src/utils/musicTheory.ts:77-90 | the advanced preset offers everything of the intermediate preset |
| MusicTheory.PresetsNested | src/utils/musicTheory.ts:62-91 | for any two tiers, the higher one's preset covers the lower one's in pitches, octave range, intervals, chords and scales |
| MusicTheory.DrawIndex | src/utils/musicTheory.ts:95 | `floor(r * len)` is an index below len, and i <= r * len < i + 1 |
| MusicTheory.RandomItem | src/utils/musicTheory.ts:94-96 | getRandomItem on a non-empty pool returns an element of the pool |
| MusicTheory.IntToString | src/utils/musicTheory.ts:100 | the rendering of an octave is non-empty and starts with a digit or a minus sign |
| MusicTheory.NatToString | src/utils/musicTheory.ts:100 | the decimal rendering of a natural is a non-empty string of digits |
| MusicTheory.ParseNatToString | src/utils/musicTheory.ts:100 | reading the decimal rendering back gives the number |
| MusicTheory.ParseIntToString | src/utils/musicTheory.ts:100 | reading the rendering of any integer, negative ones included, gives it back |
| MusicTheory.NoteName | src/utils/musicTheory.ts:99-101 | the label starts with the pitch-class name and is longer than it |
| MusicTheory.NoteNameRoundTrip | src/utils/musicTheory.ts:99-101 | the label of a note of NOTES determines its pitch class and octave: splitting it gives both back |
| Questions.DrawOctave | src/components/NoteTraining.tsx:38-39 | the drawn octave lies in the inclusive octave range |
| Questions.AbsolutePitch | src/components/IntervalTraining.tsx:47-49 | a note's height lies in its octave's band of twelve, and its place in that band is the pitch-class index |
| Questions.Transpose | src/components/IntervalTraining.tsx:47-49 | the target pitch class is a name of NOTES; for an offset below 12 the carry is 0 or 1 octave |
| Questions.TransposePitch | src/components/IntervalTraining.tsx:47-49 | the target's height (12 * octave + index) is the base height plus the offset |
| Questions.MajorThirdAboveC4 | src/components/IntervalTraining.tsx:40-49 | C4 up a major third (4 semitones) is E4 |
| Questions.MajorSecondAboveB4 | src/components/IntervalTraining.tsx:40-49 | B4 up a major second (2 semitones) wraps to C#5 |
| Questions.PickRoot | src/components/IntervalTraining.tsx:43-45 | the root name is in the settings' note range and in NOTES; its octave is in the settings' octave range |
| Questions.NoteQuestion | src/components/NoteTraining.tsx:36-43 | the question is one note; its name is in the note range and its octave in the octave range |
| Questions.IntervalQuestion | src/components/IntervalTraining.tsx:38-59 | the name is from the preset's interval catalog; notes are [base, target]; base from the pitch pool; target exactly the interval's semitones above the base, at most one octave up |
| Questions.ChordQuestion | src/components/ChordTraining.tsx:38-59 | the name is from the preset's chord catalog and a key of CHORDS; there are as many notes as offsets |
| Questions.ChordQuestionNotes | src/components/ChordTraining.tsx:40-52 | the notes are the chosen chord's offsets realised on the drawn root |
| Questions.ChordQuestionRoot | src/components/ChordTraining.tsx:43-52 | the first note of a generated chord is its root, drawn from the pitch pool |
| Questions.Realise | src/components/ChordTraining.tsx:47-52 | note i is the note `offsets[i]` semitones above the root, by the same wrap and carry |
| Questions.RealiseRoot | src/components/ChordTraining.tsx:48-51 | with offset 0 first, the first realised note is the root itself |
| Questions.RealiseHeights | src/components/ChordTraining.tsx:48-52 | every realised note lies exactly its offset above the root, at most one octave up |
| Questions.RealiseAscending | src/components/ChordTraining.tsx:48-52 | the heights of the realised notes rise strictly |
| Questions.RealiseShape | src/components/ChordTraining.tsx:48-52 | all notes are in NOTES; note i lies offset i above the first note, within one octave of it; the heights rise strictly |
| Questions.Generate | src/components/NoteTraining.tsx:36-43 | each trainer's question has the shape of its mode: a note from the range, an interval of two notes from the catalog, or a chord of the catalog with one note per offset |
| Storage.LastN | src/utils/storage.ts:12-16 | the newest n elements, in order: a suffix of length min(len, n) |
| Storage.LastNAbsorbs | src/utils/storage.ts:10-18 | trimming, appending and trimming again keeps what one trim of the whole would keep |
| Storage.SaveAllKeepsNewest | src/utils/storage.ts:10-18 | after any number of saves the log is the newest 1000 of all results saved, in save order |
| Storage.Store.SaveResult | src/utils/storage.ts:10-18 | below capacity the log becomes old ++ [r]; at 1000 it becomes old[1..] ++ [r]; the other slots are unchanged |
| Storage.Filter | src/utils/storage.ts:28 | every kept element satisfies the predicate, and the result is no longer than the input |
| Storage.FilterCounts | src/utils/storage.ts:28 | every element the predicate accepts is kept as often as it occurs; nothing else is kept |
| Storage.FilterAppend | src/utils/storage.ts:34 | filtering distributes over concatenation, so it keeps log order |
| Storage.ResultsByMode | src/utils/storage.ts:27-29 | a result is selected exactly when it is in the log with the given mode |
| Storage.RecentResults | src/utils/storage.ts:32-35 | a result is selected exactly when it is in the log and stamped at or after now − days · 86 400 000 |
| Storage.InWindow | src/utils/storage.ts:57-59 | a result is selected exactly when it is in the log and its stamp lies within [start, end] |
| Storage.SelectionCounts | src/utils/storage.ts:27-35 | the three selections keep every qualifying result as often as it occurs in the log, so none is dropped |
| Storage.CountCorrect | src/utils/storage.ts:40 | the number of correct results is at most the number of results |
| Storage.CountCorrectExtremes | src/utils/storage.ts:40 | all results correct gives the full count; none correct gives zero |
| Storage.CountCorrectIsFilter | src/utils/storage.ts:40 | the count equals the length of `filter(r => r.correct)` |
| Storage.QuotientBracket | src/utils/storage.ts:41 | the quotient q of a by b satisfies q·b <= a < q·b + b |
| Storage.RoundedPercent | src/utils/storage.ts:39-41 | 0 for an empty total; at most 100 when the count does not exceed the total |
| Storage.RoundedPercentHalfUp | src/utils/storage.ts:41 | the result p is round-half-up of 100c/n: 2n·p <= 200c + n < 2n·(p + 1) |
| Storage.PercentBounds | src/utils/storage.ts:41 | the half-up bracket and the bound 100 for c <= n |
| Storage.CalculateAccuracy | src/utils/storage.ts:38-42 | the accuracy is in [0, 100] and is 0 for no results |
| Storage.StatOf | src/utils/storage.ts:98-106 | a mode's entry: its total is the number of that mode's results; correct <= total; accuracy <= 100 and 0 when total is 0 |
| Storage.ModeStats | src/utils/storage.ts:96-108 | four entries, in the order note, interval, chord, scale |
| Storage.ModeTotalsSum | src/utils/storage.ts:96-108 | the four totals add up to the length of the log |
| Storage.ModeCountsSum | src/utils/storage.ts:96-108 | the four mode selections together have exactly as many results as the log |
| Storage.TotalOf | src/utils/storage.ts:75-83 | an answer's total is at most the number of results, and 0 exactly when no result has that answer |
| Storage.CorrectOf | src/utils/storage.ts:75-83 | an answer's correct count never exceeds its total |
| Storage.ItemAccuracy | src/utils/storage.ts:88 | an answer's rounded accuracy is at most 100 |
| Storage.Answers | src/utils/storage.ts:73-78 | the tally's distinct keys: an answer is a key exactly when it occurs in the window |
| Storage.Entries | src/utils/storage.ts:85-89 | one row per key, in key order, carrying the key's rounded accuracy |
| Storage.InsertSorted | src/utils/storage.ts:91 | inserting into a list sorted by accuracy keeps it sorted and adds exactly that row |
| Storage.SortByAccuracy | src/utils/storage.ts:91 | the sort returns as many rows as it is given |
| Storage.SortByAccuracyCorrect | src/utils/storage.ts:91 | the sort orders by accuracy, lowest first, and is a permutation of its input |
| Storage.SortByAccuracyStable | src/utils/storage.ts:91 | the sort is stable: the rows of any one accuracy keep their relative order |
| Storage.WeakPointsOf | src/utils/storage.ts:85-92 | at most five rows, and no more than there are distinct answers |
| Storage.WeakPointsSound | src/utils/storage.ts:71-93 | at most five rows, sorted by accuracy; each row is an answer occurring in the window with its own rounded accuracy, below 70 |
| Storage.WeakPointsComplete | src/utils/storage.ts:85-92 | an answer of the window below 70% is listed, unless five rows no higher than it are listed |
| Storage.TallyStep | src/utils/storage.ts:75-83 | counting one more result keeps the tally exact: only its answer's entry changes, and it is created at zero when new |
| Storage.Tally | src/utils/storage.ts:75-83 | the forEach leaves each answer of the window with its exact correct and total counts, keys in first-occurrence order |
| Storage.WeakPoints | src/utils/storage.ts:71-93 | getWeakPoints over the last 30 days gives the weak-point rows of those results |
| Storage.DayAccuracy | src/utils/storage.ts:57-63 | a day's accuracy is at most 100 |
| Storage.AccuracyTrend | src/utils/storage.ts:45-68 | one value per given day window, each the accuracy of the results stamped in that window |
| Storage.AddIf | src/utils/storage.ts:137-139 | a guarded push: the old list stays in front; the value is added only when the condition holds; no duplicate is created |
| Storage.UnlockedModes | src/utils/storage.ts:136-151 | interval is present iff it was or note-correct >= 20; chord iff it was or interval-correct >= 30; scale iff it was or chord-correct >= 40; nothing is removed or duplicated |
| Storage.UnlockedDifficulties | src/utils/storage.ts:153-167 | elementary is present iff it was or (A >= 60 and N >= 20); intermediate iff it was or (A >= 70 and N >= 50); advanced iff it was or (A >= 80 and N >= 100); nothing is removed or duplicated |
| Storage.Unlocks | src/utils/storage.ts:131-170 | both lists follow the rules fed from the mode statistics and the last seven days; the challenge count and achievements are unchanged |
| Storage.UnlocksIdempotent | src/utils/storage.ts:131-170 | checking twice with the same log and clock gives the same progress as checking once |
| Storage.ModesIdempotent | src/utils/storage.ts:136-151 | applying the mode rules twice gives the result of applying them once |
| Storage.DifficultiesIdempotent | src/utils/storage.ts:153-167 | applying the difficulty rules twice gives the result of applying them once |
| Storage.ExtendsTransitive | src/utils/storage.ts:131-170 | keeping a record's unlocks is transitive |
| Storage.UnlocksNeverRevoked | src/utils/storage.ts:131-170 | over any series of checks, even as old results leave the log, the original unlock lists stay in front and the other fields are kept |
| Storage.DefaultStaysUnlocked | src/utils/storage.ts:117-123 | from the default progress, note training and the beginner tier stay unlocked through any series of checks |
| Storage.PushModes | src/utils/storage.ts:136-151 | the in-place pushes compute exactly the mode rules |
| Storage.PushDifficulties | src/utils/storage.ts:153-167 | the in-place pushes compute exactly the difficulty rules |
| Storage.CheckUnlocks | src/utils/storage.ts:131-170 | checkUnlocks returns exactly the progress the rules define |
| Storage.Store.constructor | src/utils/storage.ts:21-24 | empty storage: no results, no progress, no settings |
| Storage.Store.GetUserProgress | src/utils/storage.ts:111-124 | the saved record, or the default ([note], [beginner], 0, []) when none is saved |
| Storage.Store.SaveUserProgress | src/utils/storage.ts:126-128 | the progress slot holds the record; the other slots are unchanged |
| Storage.Store.RefreshUnlocks | src/components/NoteTraining.tsx:96-99 | the saved progress becomes checkUnlocks of the loaded one; the log and settings are unchanged |
| Storage.Store.GetSettings | src/utils/storage.ts:173-176 | the saved settings, or none |
| Storage.Store.SaveSettings | src/utils/storage.ts:178-180 | the settings slot holds the record; the other slots are unchanged |
| Training.BaseScore | src/components/IntervalTraining.tsx:90 | the base score of a challenge answer is between 10 and 20 (10, 15 or 20 by mode) |
| Training.Step | src/components/NoteTraining.tsx:67-79 | one more answer counted; the score and the best streak never fall; the streak is 0 exactly after a wrong answer, and stays within the best streak |
| Training.StepEffect | src/components/NoteTraining.tsx:67-79 | correct: total, correct and streak rise by one, the best streak is their max, the score gains base·(10 + streak) tenths, lives kept. Wrong: total rises, a life is lost, the streak is 0, the rest kept. The scorecard stays consistent |
| Training.Max | src/components/NoteTraining.tsx:74 | the larger of two values |
| Training.Play | src/components/NoteTraining.tsx:52-83 | a finished game (no lives) ignores further answers; each answer counts at most once; the score never falls |
| Training.PlayConsistent | src/components/NoteTraining.tsx:21-28 | through any answers from a consistent scorecard: correct <= total, streak <= best streak <= correct, three lives less the misses (so at most 3), and the score never decreases |
| Training.StepScoreBounded | src/components/NoteTraining.tsx:75 | one answer keeps the score between 11·base·c and base·(10c + c(c+1)/2) tenths for c correct answers |
| Training.PlayScoreBounded | src/components/NoteTraining.tsx:67-81 | those score bounds hold through any sequence of answers |
| Training.GameOverAtThreeMisses | src/components/NoteTraining.tsx:83 | lives are gone exactly when three answers were wrong |
| Training.ThreeMissesEndFreshGame | src/components/NoteTraining.tsx:76-83 | three wrong answers from the fresh scorecard leave no lives after three answers |
| Training.Rating | src/components/NoteTraining.tsx:104-111 | no answers gives F; S exactly at an unrounded accuracy of 90% or more; F only below 50% |
| Training.RatingThresholds | src/components/NoteTraining.tsx:104-113 | a grade of rank at least k is earned exactly by an unrounded accuracy of at least 40 + 10k percent |
| Training.RatingMonotone | src/components/NoteTraining.tsx:104-113 | a higher accuracy never earns a lower grade |
| Training.ThresholdCarries | src/components/NoteTraining.tsx:104-113 | an accuracy threshold met by one ratio is met by any higher ratio |
| Training.UnroundedRatingExample | src/components/NoteTraining.tsx:104-107 | 179 of 200 rounds to 90% but earns A, since the grade uses the unrounded 89.5% |
| Training.Session.constructor | src/components/NoteTraining.tsx:19-30 | the first render: no question, answer hidden, a fresh scorecard of three lives, no game over, no rating |
| Training.Session.NextQuestion | src/components/NoteTraining.tsx:36-43 | the question is the mode's generator applied to the draws; the answer is hidden; the scorecard is untouched |
| Training.Session.EndChallenge | src/components/NoteTraining.tsx:102-119 | game over; the rating is the grade of the final scorecard; the saved progress has one more completed challenge |
| Training.Session.ScoreAnswer | src/components/NoteTraining.tsx:67-87 | the scorecard takes the step of the answer; with no lives left the challenge ends and is counted as completed |
| Training.Session.Record | src/components/NoteTraining.tsx:54-94 | exactly one result is logged (right answer, the selection, mode, game mode, difficulty, clock); challenge: the scorecard steps; zen: the answer is shown and the scorecard untouched |
| Training.Session.Answer | src/components/NoteTraining.tsx:51-100 | ignored when there is no question or the game is over; otherwise as Record, then the unlock rules are applied to the saved progress |
| Training.Session.Miss | src/components/NoteTraining.tsx:76-78 | a wrong challenge answer costs a life and the streak and counts one more answer |
| Training.Session.Restart | src/components/NoteTraining.tsx:121-133 | the scorecard is reset to three lives and zeros; no game over or rating; a new question, answer hidden |
| Training.ThreeMissesEndChallenge | src/components/NoteTraining.tsx:76-113 | three wrong answers in a fresh challenge end it with no lives left, graded F |
| SettingsScreen.InitialSettings | src/components/Settings.tsx:38-43 | beginner tier, harmonic playback, the pool C D E F G A B in octave 4, drawable by the trainers |
| SettingsScreen.WithDifficulty | src/components/Settings.tsx:53-61 | the chosen tier is set with a drawable pool, and the play mode is kept |
| SettingsScreen.WithPlayMode | src/components/Settings.tsx:128 | the play mode is set; tier and pitch pool are kept |
| SettingsScreen.InitialSettingsBeginner | src/components/Settings.tsx:38-43 | the initial record has the beginner preset's pool (C D E F G A B, octave 4), harmonic playback and beginner difficulty, and the trainers can draw from it |
| SettingsScreen.DifficultyChangeEffect | src/components/Settings.tsx:53-61 | choosing a tier sets it and its preset's pool, which is always drawable; the play mode and enabled lists are kept |
| SettingsScreen.PlayModeChangeEffect | src/components/Settings.tsx:128 | choosing a play mode changes only that field |
| SettingsScreen.LastDifficultyWins | src/components/Settings.tsx:53-61 | only the last tier chosen matters |
| SettingsScreen.ChoicesCommute | src/components/Settings.tsx:53-61 | a tier choice and a play-mode choice commute |
| SettingsScreen.Screen.constructor | src/components/Settings.tsx:38-44 | the first render holds the initial record, not yet saved |
| SettingsScreen.Screen.Mount | src/components/Settings.tsx:46-51 | saved settings, when present, replace the record |
| SettingsScreen.Screen.ChooseDifficulty | src/components/Settings.tsx:53-61 | the record becomes the tier choice's update of the old one |
| SettingsScreen.Screen.ChoosePlayMode | src/components/Settings.tsx:128 | the record becomes the play-mode update of the old one |
| SettingsScreen.Screen.Save | src/components/Settings.tsx:63-65 | the whole record goes to the settings slot and the confirmation shows; the other slots are unchanged |
| SettingsScreen.SaveThenRemount | src/components/Settings.tsx:46-65 | saving and mounting a new screen on the same storage gives back exactly the saved record |

## Left out

- Rendering, animation, styling and the audio engine are presentation, not engine logic. This includes `getNoteFrequency`, which is floating-point.
- Browser storage and JSON are replaced by the in-memory `Store`. A malformed stored value is not modelled.
- `Math.random()` and `Date.now()` are parameters: the draws `r` and the clock `now`. One `now` serves both the saved result and the unlock check of one answer.
- Training.Step: the score is kept exactly in tenths. The app's floating-point sum `base * (1 + streak * 0.1)` can differ from this in its last bits.
- Storage.RoundedPercent: `Math.round` of the floating-point percentage is modelled as exact round-half-up, `(200c + n) div 2n`. Binary rounding of values that lie exactly on a half is not modelled.
- Training.Session.Answer: the screens disable the answer buttons while the zen reveal is shown. The model has no buttons, so it accepts and logs an answer given during the reveal.
- The `setTimeout` delays are left out. The next question is a separate `NextQuestion` step, and timer cancellation is not modelled. The settings screen's reset of the "saved" flag after two seconds is left out, for the same reason.
- Storage.AccuracyTrend: the calendar and locale part of getAccuracyTrend is not modelled. That part builds the dates with `setDate`, `setHours` and `toLocaleDateString`. The day windows [start, end] are given instead, oldest first, and the date labels are dropped.
- Training.Session.NextQuestion: the model requires a drawable pitch pool. That means a non-empty note range of NOTES names and low octave <= high octave. The settings screen only produces such pools. In the app, a malformed saved record would make `indexOf` return -1.
- Storage.CheckUnlocks: in the app, the shallow copy shares its arrays with the progress passed in, so the pushes also change that progress. Every caller passes a freshly read record, so this aliasing is not observable. The model returns a new value.
- Storage.Entries: `Object.entries` puts integer-like keys first. The model keeps first-occurrence order. No answer name of the app is integer-like.
- Training.Rating: the rating is a `Grade` value. An unset rating (the empty string) is `None`. With no answers the app's accuracy is not a number; that gives F, and the model gives F too.
- Questions.ChordQuestion: its own contract gives the name and the note count. The shape of the notes is stated by ChordQuestionNotes together with RealiseShape.
- Training.Session.Miss is Answer restricted to a wrong challenge answer. It exists to state the field-by-field effect that ThreeMissesEndChallenge relies on.
- Scale training is left out. Its screen is not part of this model, so no scale question, base score or scale statistics beyond the mode count are modelled.
- The statistics and app screens are presentation and are not modelled. They also hold the one-line `includes` unlock check.
