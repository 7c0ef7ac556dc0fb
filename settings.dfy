/** The settings screen: one settings record held in the screen's state,
    replaced by the difficulty and play-mode handlers, loaded from storage
    when the screen mounts and written back by the save button. */
module SettingsScreen {
  import opened Types
  import opened MusicTheory
  import opened Questions
  import opened Storage

  /** The record the screen starts from: the beginner preset's pitch pool,
      harmonic playback, beginner difficulty and no enabled lists. */
  function InitialSettings(): (s: TrainingSettings)
    ensures s.difficulty == Beginner && s.playMode == Harmonic && ValidPitchPool(s)
    ensures s.noteRange == ["C", "D", "E", "F", "G", "A", "B"] && s.octaveRange == (4, 4)
  {
    BeginnerWellFormed();
    var preset := DifficultyPreset(Beginner);
    TrainingSettings(preset.noteRange, preset.octaveRange, Harmonic, Beginner, None, None, None)
  }

  /** handleDifficultyChange: `{...settings, difficulty, noteRange, octaveRange}`
      with the pool of the chosen tier's preset. */
  function WithDifficulty(s: TrainingSettings, d: DifficultyLevel): (t: TrainingSettings)
    ensures t.difficulty == d && ValidPitchPool(t)
    ensures t.playMode == s.playMode
  {
    var preset := DifficultyPreset(d);
    s.(difficulty := d, noteRange := preset.noteRange, octaveRange := preset.octaveRange)
  }

  /** The play-mode buttons: `{...settings, playMode}`. */
  function WithPlayMode(s: TrainingSettings, m: PlayMode): (t: TrainingSettings)
    ensures t.playMode == m && t.difficulty == s.difficulty
    ensures t.noteRange == s.noteRange && t.octaveRange == s.octaveRange
  {
    s.(playMode := m)
  }

  /** The pitch pool of the record is the one of its own tier's preset. */
  predicate MatchesPreset(s: TrainingSettings) {
    var preset := DifficultyPreset(s.difficulty);
    s.noteRange == preset.noteRange && s.octaveRange == preset.octaveRange
  }

  /** The fields no handler of the screen other than their own touches. */
  predicate SameExtras(s: TrainingSettings, t: TrainingSettings) {
    && s.enabledIntervals == t.enabledIntervals
    && s.enabledChords == t.enabledChords
    && s.enabledScales == t.enabledScales
  }

  /** The initial record is the beginner tier with harmonic playback, and the
      trainers can draw from its pool. */
  lemma InitialSettingsBeginner()
    ensures var s := InitialSettings();
      && s.difficulty == Beginner && s.playMode == Harmonic
      && MatchesPreset(s) && ValidPitchPool(s)
      && s.noteRange == ["C", "D", "E", "F", "G", "A", "B"] && s.octaveRange == (4, 4)
      && s.enabledIntervals == None && s.enabledChords == None && s.enabledScales == None
  {
    BeginnerWellFormed();
  }

  /** Choosing a tier sets it and its preset's pool, which the trainers can
      always draw from, and keeps the play mode and the enabled lists. */
  lemma DifficultyChangeEffect(s: TrainingSettings, d: DifficultyLevel)
    ensures var t := WithDifficulty(s, d);
      && t.difficulty == d && MatchesPreset(t) && ValidPitchPool(t)
      && t.playMode == s.playMode && SameExtras(s, t)
  {
  }

  /** Choosing a play mode changes that field and nothing else. */
  lemma PlayModeChangeEffect(s: TrainingSettings, m: PlayMode)
    ensures var t := WithPlayMode(s, m);
      && t.playMode == m
      && t.noteRange == s.noteRange && t.octaveRange == s.octaveRange
      && t.difficulty == s.difficulty && SameExtras(s, t)
      && (MatchesPreset(t) <==> MatchesPreset(s))
      && (ValidPitchPool(t) <==> ValidPitchPool(s))
  {
  }

  /** Only the last tier chosen matters. */
  lemma LastDifficultyWins(s: TrainingSettings, d1: DifficultyLevel, d2: DifficultyLevel)
    ensures WithDifficulty(WithDifficulty(s, d1), d2) == WithDifficulty(s, d2)
  {
  }

  /** The two kinds of choice are independent: their order does not matter. */
  lemma ChoicesCommute(s: TrainingSettings, d: DifficultyLevel, m: PlayMode)
    ensures WithPlayMode(WithDifficulty(s, d), m) == WithDifficulty(WithPlayMode(s, m), d)
  {
  }

  /** One mounted settings screen. */
  class Screen {
    const store: Store
    var settings: TrainingSettings
    var saved: bool

    /** The first render, before the mount effect has run. */
    constructor(store: Store)
      ensures this.store == store && settings == InitialSettings() && !saved
    {
      this.store := store;
      settings := InitialSettings();
      saved := false;
    }

    /** The mount effect: saved settings, when there are any, replace the
        initial record. */
    method Mount()
      modifies this
      ensures store.settings.Some? ==> settings == store.settings.value
      ensures store.settings.None? ==> settings == old(settings)
      ensures saved == old(saved)
    {
      var s := store.GetSettings();
      if s.Some? {
        settings := s.value;
      }
    }

    /** handleDifficultyChange. */
    method ChooseDifficulty(d: DifficultyLevel)
      modifies this
      ensures settings == WithDifficulty(old(settings), d) && saved == old(saved)
    {
      var preset := DifficultyPreset(d);
      settings := settings.(difficulty := d, noteRange := preset.noteRange, octaveRange := preset.octaveRange);
    }

    /** A play-mode button. */
    method ChoosePlayMode(m: PlayMode)
      modifies this
      ensures settings == WithPlayMode(old(settings), m) && saved == old(saved)
    {
      settings := settings.(playMode := m);
    }

    /** handleSave: the whole record goes to storage and the confirmation shows. */
    method Save()
      requires store.Valid()
      modifies this, store
      ensures store.Valid() && store.settings == Some(settings)
      ensures settings == old(settings) && saved
      ensures store.results == old(store.results) && store.progress == old(store.progress)
    {
      store.SaveSettings(settings);
      saved := true;
    }
  }

  /** Saving and mounting a new screen on the same storage gives back exactly
      the saved record. */
  method SaveThenRemount(screen: Screen) returns (later: Screen)
    requires screen.store.Valid()
    modifies screen, screen.store
    ensures later.store == screen.store && later.settings == old(screen.settings)
    ensures !later.saved && screen.saved
  {
    screen.Save();
    later := new Screen(screen.store);
    later.Mount();
  }
}
