/** The static music-theory tables: the twelve pitch classes, the interval,
    chord and scale tables, the four difficulty presets, the uniform draw from
    a pool and the "name + octave" note label. */
module MusicTheory {
  import opened Types

  predicate Distinct<T(==)>(s: seq<T>) {
    forall i, j :: 0 <= i < j < |s| ==> s[i] != s[j]
  }

  /** Every element of `small` occurs in `big`. */
  predicate IncludedIn<T(==)>(small: seq<T>, big: seq<T>) {
    forall i :: 0 <= i < |small| ==> small[i] in big
  }

  // ---------------------------------------------------------------------------
  // Pitch classes

  /** NOTES: the pitch class at index i lies i semitones above C. */
  function Notes(): (r: seq<string>)
    ensures |r| == 12 && r[0] == "C"
    ensures Distinct(r)
    ensures forall i :: 0 <= i < |r| ==> 1 <= |r[i]| <= 2
    ensures forall i :: 0 <= i < |r| && |r[i]| == 2 ==> r[i][1] == '#'
    ensures forall i :: 0 <= i < |r| ==> 'A' <= r[i][0] <= 'G'
  {
    ["C", "C#", "D", "D#", "E", "F", "F#", "G", "G#", "A", "A#", "B"]
  }

  /** `NOTES.indexOf(name)`: the position of `name`, or -1 when it is absent. */
  function IndexOf(s: seq<string>, name: string): (i: int)
    ensures -1 <= i < |s|
    ensures i == -1 <==> name !in s
    ensures 0 <= i ==> s[i] == name
    ensures 0 <= i ==> forall j :: 0 <= j < i ==> s[j] != name
  {
    if |s| == 0 then -1
    else if s[0] == name then 0
    else
      var j := IndexOf(s[1..], name);
      if j < 0 then -1 else j + 1
  }

  /** The semitone distance of a pitch class above C. */
  function PitchIndex(name: string): (i: nat)
    requires name in Notes()
    ensures i < 12 && Notes()[i] == name
  {
    IndexOf(Notes(), name)
  }

  // ---------------------------------------------------------------------------
  // Name-keyed tables, kept in declaration order (the order of Object.keys)

  function Keys<V>(table: seq<(string, V)>): (ks: seq<string>)
    ensures |ks| == |table|
    ensures forall i :: 0 <= i < |table| ==> ks[i] == table[i].0
  {
    seq(|table|, i requires 0 <= i < |table| => table[i].0)
  }

  /** Looking a name up in a table: the value of the first entry carrying it. */
  function Lookup<V(==)>(table: seq<(string, V)>, key: string): (r: Option<V>)
    ensures r.None? <==> key !in Keys(table)
    ensures r.Some? ==> exists i :: 0 <= i < |table| && table[i] == (key, r.value)
  {
    if |table| == 0 then None
    else if table[0].0 == key then Some(table[0].1)
    else
      var r := Lookup(table[1..], key);
      assert Keys(table) == [table[0].0] + Keys(table[1..]);
      if r.Some? then
        var i :| 0 <= i < |table[1..]| && table[1..][i] == (key, r.value);
        assert table[i + 1] == (key, r.value);
        r
      else r
  }

  /** In a table with distinct names, looking up the i-th name gives the i-th value. */
  lemma {:induction false} LookupAt<V>(table: seq<(string, V)>, i: nat)
    requires Distinct(Keys(table)) && i < |table|
    ensures Lookup(table, table[i].0) == Some(table[i].1)
  {
    if i > 0 {
      assert table[0].0 == Keys(table)[0] != Keys(table)[i] == table[i].0;
      assert Keys(table[1..]) == Keys(table)[1..];
      LookupAt(table[1..], i - 1);
    }
  }

  // ---------------------------------------------------------------------------
  // Intervals

  /** INTERVALS: interval name to semitone count. */
  function Intervals(): (t: seq<(string, nat)>)
    ensures |t| == 13
    ensures Distinct(Keys(t))
    ensures forall i, j :: 0 <= i < j < |t| ==> t[i].1 != t[j].1
    ensures forall i :: 0 <= i < |t| ==> t[i].1 <= 12
  {
    [("Unison", 0), ("Minor 2nd", 1), ("Major 2nd", 2), ("Minor 3rd", 3),
     ("Major 3rd", 4), ("Perfect 4th", 5), ("Tritone", 6), ("Perfect 5th", 7),
     ("Minor 6th", 8), ("Major 6th", 9), ("Minor 7th", 10), ("Major 7th", 11),
     ("Octave", 12)]
  }

  /** `INTERVALS[name]` for a name in the table. */
  function IntervalSemitones(name: string): (n: nat)
    requires name in Keys(Intervals())
    ensures n <= 12
    ensures (name, n) in Intervals()
  {
    Lookup(Intervals(), name).value
  }

  // ---------------------------------------------------------------------------
  // Chords and scales

  /** An offset list that starts at the root, rises strictly and stays within one octave. */
  predicate RootedAscending(offsets: seq<nat>) {
    && |offsets| > 0
    && offsets[0] == 0
    && (forall i, j :: 0 <= i < j < |offsets| ==> offsets[i] < offsets[j])
    && (forall i :: 0 <= i < |offsets| ==> offsets[i] < 12)
  }

  /** CHORDS: chord name to semitone offsets above the root. */
  function Chords(): (t: seq<(string, seq<nat>)>)
    ensures |t| == 13
    ensures Distinct(Keys(t))
    ensures forall i :: 0 <= i < |t| ==> RootedAscending(t[i].1)
    ensures forall i :: 0 <= i < |t| ==> 3 <= |t[i].1| <= 4
  {
    [("Major", [0, 4, 7]), ("Minor", [0, 3, 7]), ("Diminished", [0, 3, 6]),
     ("Augmented", [0, 4, 8]), ("Sus2", [0, 2, 7]), ("Sus4", [0, 5, 7]),
     ("Major 7th", [0, 4, 7, 11]), ("Minor 7th", [0, 3, 7, 10]),
     ("Dominant 7th", [0, 4, 7, 10]), ("Diminished 7th", [0, 3, 6, 9]),
     ("Half-Diminished 7th", [0, 3, 6, 10]), ("Major 6th", [0, 4, 7, 9]),
     ("Minor 6th", [0, 3, 7, 9])]
  }

  /** SCALES: scale name to semitone offsets above the root. */
  function Scales(): (t: seq<(string, seq<nat>)>)
    ensures |t| == 12
    ensures Distinct(Keys(t))
    ensures forall i :: 0 <= i < |t| ==> RootedAscending(t[i].1)
    ensures forall i :: 0 <= i < |t| ==> 5 <= |t[i].1| <= 7
  {
    [("Major", [0, 2, 4, 5, 7, 9, 11]), ("Natural Minor", [0, 2, 3, 5, 7, 8, 10]),
     ("Harmonic Minor", [0, 2, 3, 5, 7, 8, 11]), ("Melodic Minor", [0, 2, 3, 5, 7, 9, 11]),
     ("Dorian", [0, 2, 3, 5, 7, 9, 10]), ("Phrygian", [0, 1, 3, 5, 7, 8, 10]),
     ("Lydian", [0, 2, 4, 6, 7, 9, 11]), ("Mixolydian", [0, 2, 4, 5, 7, 9, 10]),
     ("Pentatonic Major", [0, 2, 4, 7, 9]), ("Pentatonic Minor", [0, 3, 5, 7, 10]),
     ("Blues", [0, 3, 5, 6, 7, 10]), ("Whole Tone", [0, 2, 4, 6, 8, 10])]
  }

  /** `CHORDS[name]` for a name in the table. */
  function ChordOffsets(name: string): (offsets: seq<nat>)
    requires name in Keys(Chords())
    ensures RootedAscending(offsets)
    ensures (name, offsets) in Chords()
  {
    Lookup(Chords(), name).value
  }

  // ---------------------------------------------------------------------------
  // Difficulty presets

  datatype Preset = Preset(
    noteRange: seq<string>,
    octaveRange: (int, int),
    intervals: seq<string>,
    chords: seq<string>,
    scales: seq<string>)

  /** Every catalog is non-empty and names only table entries, and the octave
      range is a non-empty interval. */
  predicate WellFormedPreset(p: Preset) {
    && |p.noteRange| > 0 && IncludedIn(p.noteRange, Notes())
    && p.octaveRange.0 <= p.octaveRange.1
    && |p.intervals| > 0 && IncludedIn(p.intervals, Keys(Intervals()))
    && |p.chords| > 0 && IncludedIn(p.chords, Keys(Chords()))
    && |p.scales| > 0 && IncludedIn(p.scales, Keys(Scales()))
  }

  /** `big` offers at least everything `small` offers. */
  predicate Covers(big: Preset, small: Preset) {
    && IncludedIn(small.noteRange, big.noteRange)
    && big.octaveRange.0 <= small.octaveRange.0
    && small.octaveRange.1 <= big.octaveRange.1
    && IncludedIn(small.intervals, big.intervals)
    && IncludedIn(small.chords, big.chords)
    && IncludedIn(small.scales, big.scales)
  }

  /** The order of the tiers: beginner < elementary < intermediate < advanced. */
  function Tier(d: DifficultyLevel): nat {
    match d
    case Beginner => 0
    case Elementary => 1
    case Intermediate => 2
    case Advanced => 3
  }

  function BeginnerPreset(): Preset {
    Preset(["C", "D", "E", "F", "G", "A", "B"], (4, 4),
           ["Major 2nd", "Major 3rd", "Perfect 4th", "Perfect 5th"],
           ["Major", "Minor"],
           ["Major", "Natural Minor"])
  }

  function ElementaryPreset(): Preset {
    Preset(Notes(), (3, 5),
           ["Minor 2nd", "Major 2nd", "Minor 3rd", "Major 3rd", "Perfect 4th", "Perfect 5th", "Octave"],
           ["Major", "Minor", "Diminished", "Augmented"],
           ["Major", "Natural Minor", "Harmonic Minor", "Pentatonic Major", "Pentatonic Minor"])
  }

  function IntermediatePreset(): Preset {
    Preset(Notes(), (2, 6),
           Keys(Intervals()),
           ["Major", "Minor", "Diminished", "Augmented", "Sus2", "Sus4", "Major 7th", "Minor 7th", "Dominant 7th"],
           ["Major", "Natural Minor", "Harmonic Minor", "Melodic Minor", "Dorian", "Pentatonic Major",
            "Pentatonic Minor", "Blues"])
  }

  function AdvancedPreset(): Preset {
    Preset(Notes(), (1, 7), Keys(Intervals()), Keys(Chords()), Keys(Scales()))
  }

  /** DIFFICULTY_PRESETS[d]. */
  function DifficultyPreset(d: DifficultyLevel): (p: Preset)
    ensures WellFormedPreset(p)
  {
    match d
    case Beginner => BeginnerWellFormed(); BeginnerPreset()
    case Elementary => ElementaryWellFormed(); ElementaryPreset()
    case Intermediate => IntermediateWellFormed(); IntermediatePreset()
    case Advanced => AdvancedWellFormed(); AdvancedPreset()
  }

  lemma BeginnerWellFormed()
    ensures WellFormedPreset(BeginnerPreset())
  {
    var ik, ck, sk := Keys(Intervals()), Keys(Chords()), Keys(Scales());
    assert ik[2] == "Major 2nd" && ik[4] == "Major 3rd" && ik[5] == "Perfect 4th" && ik[7] == "Perfect 5th";
    assert ck[0] == "Major" && ck[1] == "Minor";
    assert sk[0] == "Major" && sk[1] == "Natural Minor";
  }

  lemma ElementaryWellFormed()
    ensures WellFormedPreset(ElementaryPreset())
  {
    var ik, ck, sk := Keys(Intervals()), Keys(Chords()), Keys(Scales());
    assert ik[2] == "Major 2nd" && ik[4] == "Major 3rd" && ik[5] == "Perfect 4th" && ik[7] == "Perfect 5th";
    assert ik[1] == "Minor 2nd" && ik[3] == "Minor 3rd" && ik[12] == "Octave";
    assert ck[0] == "Major" && ck[1] == "Minor" && ck[2] == "Diminished" && ck[3] == "Augmented";
    assert sk[0] == "Major" && sk[1] == "Natural Minor" && sk[2] == "Harmonic Minor";
    assert sk[8] == "Pentatonic Major" && sk[9] == "Pentatonic Minor";
  }

  lemma IntermediateWellFormed()
    ensures WellFormedPreset(IntermediatePreset())
  {
    var ck, sk := Keys(Chords()), Keys(Scales());
    assert ck[0] == "Major" && ck[1] == "Minor" && ck[2] == "Diminished" && ck[3] == "Augmented";
    assert ck[4] == "Sus2" && ck[5] == "Sus4" && ck[6] == "Major 7th" && ck[7] == "Minor 7th";
    assert ck[8] == "Dominant 7th";
    assert sk[0] == "Major" && sk[1] == "Natural Minor" && sk[2] == "Harmonic Minor";
    assert sk[3] == "Melodic Minor" && sk[4] == "Dorian" && sk[10] == "Blues";
    assert sk[8] == "Pentatonic Major" && sk[9] == "Pentatonic Minor";
  }

  lemma AdvancedWellFormed()
    ensures WellFormedPreset(AdvancedPreset())
  {
  }

  /** The tiers are nested: a higher tier offers everything a lower one does. */
  lemma PresetsNested(lower: DifficultyLevel, higher: DifficultyLevel)
    requires Tier(lower) <= Tier(higher)
    ensures Covers(DifficultyPreset(higher), DifficultyPreset(lower))
  {
    var b, e, i, a := BeginnerPreset(), ElementaryPreset(), IntermediatePreset(), AdvancedPreset();
    ElementaryCoversBeginner();
    IntermediateCoversElementary();
    AdvancedCoversIntermediate();
    assert Covers(DifficultyPreset(lower), DifficultyPreset(lower));
    assert Covers(i, b) && Covers(a, e) && Covers(a, b);
  }

  lemma ElementaryCoversBeginner()
    ensures Covers(ElementaryPreset(), BeginnerPreset())
  {
    var e := ElementaryPreset();
    assert e.intervals[1] == "Major 2nd" && e.intervals[3] == "Major 3rd";
    assert e.intervals[4] == "Perfect 4th" && e.intervals[5] == "Perfect 5th";
    assert e.scales[0] == "Major" && e.scales[1] == "Natural Minor";
    assert e.noteRange[0] == "C" && e.noteRange[2] == "D" && e.noteRange[4] == "E";
    assert e.noteRange[5] == "F" && e.noteRange[7] == "G" && e.noteRange[9] == "A";
    assert e.noteRange[11] == "B";
  }

  lemma IntermediateCoversElementary()
    ensures Covers(IntermediatePreset(), ElementaryPreset())
  {
    ElementaryWellFormed();
    var i := IntermediatePreset();
    assert i.scales[0] == "Major" && i.scales[1] == "Natural Minor" && i.scales[2] == "Harmonic Minor";
    assert i.scales[5] == "Pentatonic Major" && i.scales[6] == "Pentatonic Minor";
  }

  lemma AdvancedCoversIntermediate()
    ensures Covers(AdvancedPreset(), IntermediatePreset())
  {
    IntermediateWellFormed();
  }

  // ---------------------------------------------------------------------------
  // Uniform draw

  /** `Math.floor(r * len)` for a draw r in [0, 1): always an index of the pool. */
  function DrawIndex(r: real, len: nat): (i: nat)
    requires 0.0 <= r < 1.0 && 0 < len
    ensures i < len
    ensures i as real <= r * len as real < i as real + 1.0
  {
    var n := len as real;
    assert 0.0 <= r * n < n;
    (r * n).Floor
  }

  /** getRandomItem: the element at `Math.floor(r * length)`, always a member of the pool. */
  function RandomItem<T>(pool: seq<T>, r: real): (x: T)
    requires 0.0 <= r < 1.0 && |pool| > 0
    ensures x in pool
  {
    pool[DrawIndex(r, |pool|)]
  }

  // ---------------------------------------------------------------------------
  // Note labels

  function DigitChar(d: nat): (c: char)
    requires d < 10
    ensures IsDigit(c)
  {
    (48 + d) as char
  }

  predicate IsDigit(c: char) {
    '0' <= c <= '9'
  }

  predicate AllDigits(s: string) {
    forall i :: 0 <= i < |s| ==> IsDigit(s[i])
  }

  /** The decimal digits of a natural number, without leading zeros. */
  function NatToString(n: nat): (s: string)
    ensures |s| > 0 && AllDigits(s)
    decreases n
  {
    if n < 10 then [DigitChar(n)] else NatToString(n / 10) + [DigitChar(n % 10)]
  }

  /** The template-literal rendering of an integer octave. */
  function IntToString(n: int): (s: string)
    ensures |s| > 0 && (IsDigit(s[0]) || s[0] == '-')
  {
    if n < 0 then "-" + NatToString(-n) else NatToString(n)
  }

  function ParseNat(s: string): nat
    requires AllDigits(s)
  {
    if |s| == 0 then 0 else 10 * ParseNat(s[..|s| - 1]) + (s[|s| - 1] as int - 48)
  }

  lemma {:induction false} ParseNatToString(n: nat)
    ensures ParseNat(NatToString(n)) == n
    decreases n
  {
    if n >= 10 {
      var s := NatToString(n);
      assert s[..|s| - 1] == NatToString(n / 10);
      ParseNatToString(n / 10);
    }
  }

  /** getNoteName: the pitch-class name followed by the octave, e.g. "C#4". */
  function NoteName(note: string, octave: int): (s: string)
    ensures |s| > |note| && s[..|note|] == note
  {
    note + IntToString(octave)
  }

  /** Reads a note label back: a letter, an optional '#', then a signed decimal octave. */
  function SplitNoteName(s: string): Option<(string, int)> {
    if |s| < 2 then None
    else
      var k := if s[1] == '#' then 2 else 1;
      var octave := ParseInt(s[k..]);
      if octave.Some? then Some((s[..k], octave.value)) else None
  }

  /** Reads a signed decimal integer. */
  function ParseInt(s: string): Option<int> {
    if |s| > 1 && s[0] == '-' && AllDigits(s[1..]) then Some(0 - ParseNat(s[1..]))
    else if |s| > 0 && AllDigits(s) then Some(ParseNat(s) as int)
    else None
  }

  lemma ParseIntToString(n: int)
    ensures ParseInt(IntToString(n)) == Some(n)
  {
    var t := IntToString(n);
    if n < 0 {
      assert t[1..] == NatToString(-n);
      ParseNatToString(-n);
      assert !AllDigits(t);
    } else {
      ParseNatToString(n);
      assert t[0] != '-';
    }
  }

  /** A note label determines its pitch class and octave. */
  lemma NoteNameRoundTrip(note: string, octave: int)
    requires note in Notes()
    ensures SplitNoteName(NoteName(note, octave)) == Some((note, octave))
  {
    var s := NoteName(note, octave);
    var oct := IntToString(octave);
    var k := |note|;
    assert s == note + oct;
    assert s[..k] == note && s[k..] == oct;
    assert 1 <= k <= 2 && note[0] == s[0];
    assert s[1] == '#' <==> k == 2 by {
      if k == 1 { assert s[1] == oct[0]; } else { assert s[1] == note[1]; }
    }
    ParseIntToString(octave);
  }
}
