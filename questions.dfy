/** Question generation for the note, interval and chord trainers: a concept is
    drawn from the difficulty preset's catalog, a root pitch class and octave
    from the settings' pitch pool, and the concept is realised as concrete
    notes by semitone arithmetic with a modulo-12 wrap and an octave carry. */
module Questions {
  import opened Types
  import opened MusicTheory

  /** The three uniform draws one question consumes, each in [0, 1): the
      catalog entry, the root pitch class and the root octave. */
  datatype Draws = Draws(concept: real, pitch: real, octave: real)

  predicate ValidDraws(d: Draws) {
    && 0.0 <= d.concept < 1.0
    && 0.0 <= d.pitch < 1.0
    && 0.0 <= d.octave < 1.0
  }

  /** A pitch pool the generators can sample: a non-empty list of names from
      NOTES and an inclusive octave range with low <= high. */
  predicate ValidPitchPool(s: TrainingSettings) {
    && |s.noteRange| > 0
    && IncludedIn(s.noteRange, Notes())
    && s.octaveRange.0 <= s.octaveRange.1
  }

  /** `low + Math.floor(r * (high - low + 1))`: an octave of the inclusive range. */
  function DrawOctave(range: (int, int), r: real): (o: int)
    requires range.0 <= range.1 && 0.0 <= r < 1.0
    ensures range.0 <= o <= range.1
  {
    range.0 + DrawIndex(r, range.1 - range.0 + 1)
  }

  /** The height of a note in semitones: 12 * octave + its pitch-class index. */
  function AbsolutePitch(n: Note): (h: int)
    requires n.name in Notes()
    ensures 12 * n.octave <= h < 12 * n.octave + 12
    ensures Notes()[h - 12 * n.octave] == n.name
  {
    12 * n.octave + PitchIndex(n.name)
  }

  /** The note `offset` semitones above the pitch class `rootIndex` in `octave`:
      the pitch class wraps modulo 12 and the overflow is carried into the octave. */
  function Transpose(rootIndex: nat, octave: int, offset: nat): (n: Note)
    requires rootIndex < 12
    ensures n.name in Notes()
    ensures offset < 12 ==> octave <= n.octave <= octave + 1
  {
    var k := rootIndex + offset;
    Note(Notes()[k % 12], octave + k / 12)
  }

  /** Transposing by `offset` raises the height by exactly `offset` semitones. */
  lemma TransposePitch(rootIndex: nat, octave: int, offset: nat)
    requires rootIndex < 12
    ensures AbsolutePitch(Transpose(rootIndex, octave, offset)) == 12 * octave + rootIndex + offset
  {
    var k := rootIndex + offset;
    assert PitchIndex(Notes()[k % 12]) == k % 12;
  }

  /** Worked case: C4 up a major third is E4. */
  lemma MajorThirdAboveC4()
    ensures Notes()[0] == "C" && Lookup(Intervals(), "Major 3rd") == Some(4)
    ensures Transpose(0, 4, 4).name == "E" && Transpose(0, 4, 4).octave == 4
  {
    LookupAt(Intervals(), 4);
  }

  /** Worked case: B4 up a major second wraps to C#5. */
  lemma MajorSecondAboveB4()
    ensures Notes()[11] == "B" && Lookup(Intervals(), "Major 2nd") == Some(2)
    ensures Transpose(11, 4, 2).name == "C#" && Transpose(11, 4, 2).octave == 5
  {
    LookupAt(Intervals(), 2);
    assert 13 % 12 == 1 && 13 / 12 == 1;
    assert Transpose(11, 4, 2) == Note(Notes()[1], 5);
  }

  /** The root (or base) note every generator draws from the settings' pitch
      pool: `getRandomItem(noteRange)` and a uniform octave of `octaveRange`. */
  function PickRoot(settings: TrainingSettings, d: Draws): (root: Note)
    requires ValidPitchPool(settings) && ValidDraws(d)
    ensures root.name in settings.noteRange && root.name in Notes()
    ensures settings.octaveRange.0 <= root.octave <= settings.octaveRange.1
  {
    Note(RandomItem(settings.noteRange, d.pitch), DrawOctave(settings.octaveRange, d.octave))
  }

  /** generateNewQuestion of the note trainer. */
  function NoteQuestion(settings: TrainingSettings, d: Draws): (q: Question)
    requires ValidPitchPool(settings) && ValidDraws(d)
    ensures q.name in settings.noteRange
    ensures |q.notes| == 1 && q.notes[0].name == q.name
    ensures settings.octaveRange.0 <= q.notes[0].octave <= settings.octaveRange.1
  {
    var root := PickRoot(settings, d);
    Question(root.name, [root])
  }

  /** generateNewQuestion of the interval trainer: the question is the interval
      name and the notes are [base, target]. */
  function IntervalQuestion(preset: Preset, settings: TrainingSettings, d: Draws): (q: Question)
    requires WellFormedPreset(preset) && ValidPitchPool(settings) && ValidDraws(d)
    ensures q.name in preset.intervals
    ensures |q.notes| == 2
    ensures q.notes[0].name in settings.noteRange && q.notes[1].name in Notes()
    ensures settings.octaveRange.0 <= q.notes[0].octave <= settings.octaveRange.1
    ensures q.name in Keys(Intervals())
    ensures AbsolutePitch(q.notes[1]) - AbsolutePitch(q.notes[0]) == IntervalSemitones(q.name)
    ensures q.notes[0].octave <= q.notes[1].octave <= q.notes[0].octave + 1
  {
    var name := RandomItem(preset.intervals, d.concept);
    var semitones := IntervalSemitones(name);
    var base := PickRoot(settings, d);
    var baseIndex := PitchIndex(base.name);
    var target := Transpose(baseIndex, base.octave, semitones);
    TransposePitch(baseIndex, base.octave, semitones);
    assert target.octave <= base.octave + 1 by {
      var k := baseIndex + semitones;
      assert k < 24;
    }
    Question(name, [base, target])
  }

  /** generateNewQuestion of the chord trainer: each offset of the chord is
      mapped to the note that many semitones above the root. */
  function ChordQuestion(preset: Preset, settings: TrainingSettings, d: Draws): (q: Question)
    requires WellFormedPreset(preset) && ValidPitchPool(settings) && ValidDraws(d)
    ensures q.name in preset.chords && q.name in Keys(Chords())
    ensures |q.notes| == |ChordOffsets(q.name)|
  {
    var name := RandomItem(preset.chords, d.concept);
    var root := PickRoot(settings, d);
    Question(name, Realise(root, ChordOffsets(name)))
  }

  /** A generated chord is the chosen chord realised on the drawn root. */
  lemma ChordQuestionNotes(preset: Preset, settings: TrainingSettings, d: Draws)
    requires WellFormedPreset(preset) && ValidPitchPool(settings) && ValidDraws(d)
    ensures var q := ChordQuestion(preset, settings, d);
      && RootedAscending(ChordOffsets(q.name))
      && q.notes == Realise(PickRoot(settings, d), ChordOffsets(q.name))
  {
    var name := RandomItem(preset.chords, d.concept);
    assert ChordQuestion(preset, settings, d).name == name;
  }

  /** The first note of a generated chord is its root, drawn from the pitch pool. */
  lemma ChordQuestionRoot(preset: Preset, settings: TrainingSettings, d: Draws)
    requires WellFormedPreset(preset) && ValidPitchPool(settings) && ValidDraws(d)
    ensures var q := ChordQuestion(preset, settings, d);
      && q.notes[0].name in settings.noteRange
      && settings.octaveRange.0 <= q.notes[0].octave <= settings.octaveRange.1
  {
    ChordQuestionNotes(preset, settings, d);
    var q := ChordQuestion(preset, settings, d);
    RealiseRoot(PickRoot(settings, d), ChordOffsets(q.name));
  }

  /** The realised notes, measured from the first one: every note is a pitch
      class of NOTES, note i lies offset i above the first, at most one octave
      up, and the notes rise strictly. With ChordQuestionNotes this is the
      shape of every generated chord. */
  lemma RealiseShape(root: Note, offsets: seq<nat>)
    requires root.name in Notes() && RootedAscending(offsets)
    ensures var notes := Realise(root, offsets);
      && (forall i :: 0 <= i < |notes| ==> notes[i].name in Notes())
      && (forall i :: 0 <= i < |notes| ==>
            AbsolutePitch(notes[i]) == AbsolutePitch(notes[0]) + offsets[i])
      && (forall i :: 0 <= i < |notes| ==> notes[0].octave <= notes[i].octave <= notes[0].octave + 1)
      && (forall i, j :: 0 <= i < j < |notes| ==> AbsolutePitch(notes[i]) < AbsolutePitch(notes[j]))
  {
    RealiseRoot(root, offsets);
    RealiseHeights(root, offsets);
    RealiseAscending(root, offsets);
  }

  /** The first realised note is the root itself, since every offset list starts at 0. */
  lemma RealiseRoot(root: Note, offsets: seq<nat>)
    requires root.name in Notes() && RootedAscending(offsets)
    ensures Realise(root, offsets)[0] == root
  {
    var r := PitchIndex(root.name);
    assert offsets[0] == 0;
    assert Realise(root, offsets)[0] == Transpose(r, root.octave, 0);
    assert r % 12 == r && r / 12 == 0;
    assert Transpose(r, root.octave, 0) == Note(Notes()[r], root.octave);
  }

  /** Each realised note lies exactly its offset above the root, at most one octave up. */
  lemma RealiseHeights(root: Note, offsets: seq<nat>)
    requires root.name in Notes() && RootedAscending(offsets)
    ensures var notes := Realise(root, offsets);
      && (forall i :: 0 <= i < |notes| ==> AbsolutePitch(notes[i]) == AbsolutePitch(root) + offsets[i])
      && (forall i :: 0 <= i < |notes| ==> root.octave <= notes[i].octave <= root.octave + 1)
  {
    var notes := Realise(root, offsets);
    forall i | 0 <= i < |offsets|
      ensures AbsolutePitch(notes[i]) == AbsolutePitch(root) + offsets[i]
    {
      TransposePitch(PitchIndex(root.name), root.octave, offsets[i]);
    }
  }

  /** Strictly rising offsets give strictly rising notes. */
  lemma RealiseAscending(root: Note, offsets: seq<nat>)
    requires root.name in Notes() && RootedAscending(offsets)
    ensures var notes := Realise(root, offsets);
      forall i, j :: 0 <= i < j < |notes| ==> AbsolutePitch(notes[i]) < AbsolutePitch(notes[j])
  {
    RealiseHeights(root, offsets);
  }

  /** `offsets.map(...)`: the note each offset reaches from the root. */
  function Realise(root: Note, offsets: seq<nat>): (notes: seq<Note>)
    requires root.name in Notes()
    ensures |notes| == |offsets|
    ensures forall i :: 0 <= i < |offsets| ==> notes[i] == Transpose(PitchIndex(root.name), root.octave, offsets[i])
  {
    var rootIndex := PitchIndex(root.name);
    seq(|offsets|, i requires 0 <= i < |offsets| => Transpose(rootIndex, root.octave, offsets[i]))
  }

  /** What a question of each trainer looks like. */
  predicate QuestionFits(mode: TrainingMode, difficulty: DifficultyLevel, settings: TrainingSettings, q: Question) {
    match mode
    case NoteMode => q.name in settings.noteRange && |q.notes| == 1 && q.notes[0].name == q.name
    case IntervalMode => q.name in DifficultyPreset(difficulty).intervals && |q.notes| == 2
    case ChordMode => q.name in DifficultyPreset(difficulty).chords && |q.notes| == |ChordOffsets(q.name)|
    case ScaleMode => false
  }

  /** The generator the trainer of `mode` runs. */
  function Generate(mode: TrainingMode, difficulty: DifficultyLevel, settings: TrainingSettings, d: Draws): (q: Question)
    requires mode != ScaleMode && ValidPitchPool(settings) && ValidDraws(d)
    ensures QuestionFits(mode, difficulty, settings, q)
  {
    match mode
    case NoteMode => NoteQuestion(settings, d)
    case IntervalMode => IntervalQuestion(DifficultyPreset(difficulty), settings, d)
    case ChordMode => ChordQuestion(DifficultyPreset(difficulty), settings, d)
  }
}
