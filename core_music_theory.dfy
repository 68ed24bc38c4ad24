// src/core/musicTheory.js: note names and MIDI numbers (C4 = 60), scales,
// chords, key signatures and Roman-numeral chord progressions.
module CoreMusicTheory {
  import opened JsSupport
  import opened NoteNames

  datatype TheoryError =
    | InvalidNoteName(note: string)
    | MidiOutOfRange(midi: int)
    | UnknownScaleType(scaleType: string)
    | UnknownChordType(chordType: string)
    | InvalidMode(mode: Option<string>)
    | InvalidRomanNumeral(numeral: string)
    /** The TypeError of calling a method a value does not have:
        `midiToNote(undefined)` yields the number NaN, which has no
        `.replace`. */
    | NotAFunction(callee: string)

  /** The sharp spelling of the note one semitone below a natural letter
      that has a flat in NOTE_ALIASES (D, E, G, A, B). */
  function SharpBelow(letter: char): string {
    match letter
    case 'D' => "C#"
    case 'E' => "D#"
    case 'G' => "F#"
    case 'A' => "G#"
    case _ => "A#"
  }

  predicate FlatLetter(c: char) {
    c == 'D' || c == 'E' || c == 'G' || c == 'A' || c == 'B'
  }

  /** The keys of NOTE_ALIASES that name a different note spelling: one of
      the five flats "Db" ... "Bb", alone or followed by the octave 4 or 5. */
  predicate FlatAlias(noteName: string) {
    (|noteName| == 2 || (|noteName| == 3 && (noteName[2] == '4' || noteName[2] == '5'))) &&
    noteName[1] == 'b' && FlatLetter(noteName[0])
  }

  /** normalizeNoteName: NOTE_ALIASES maps the five flats "Db" ... "Bb", and
      the same flats followed by 4 or 5, to the sharp spelling; its entries
      "F#" and "C#" map to themselves, and anything else is returned as is. */
  function NormalizeNoteName(noteName: string): (r: string)
    ensures FlatAlias(noteName) ==> r == SharpBelow(noteName[0]) + noteName[2..]
    ensures !FlatAlias(noteName) ==> r == noteName
  {
    if |noteName| == 2 && noteName[1] == 'b' && FlatLetter(noteName[0]) then SharpBelow(noteName[0])
    else if |noteName| == 3 && noteName[1] == 'b' && FlatLetter(noteName[0]) && (noteName[2] == '4' || noteName[2] == '5') then
      SharpBelow(noteName[0]) + [noteName[2]]
    else noteName
  }

  /** Normalizing changes a name exactly when it is a flat alias, and then
      only its accidental: the letter becomes the one below, "b" becomes
      "#", and the octave suffix stays. */
  lemma NormalizeChangesExactlyFlats(noteName: string)
    ensures NormalizeNoteName(noteName) != noteName <==> FlatAlias(noteName)
    ensures FlatAlias(noteName) ==>
              |NormalizeNoteName(noteName)| == |noteName| && NormalizeNoteName(noteName)[1] == '#' &&
              NormalizeNoteName(noteName)[2..] == noteName[2..]
  {
    if FlatAlias(noteName) {
      assert NormalizeNoteName(noteName)[1] != noteName[1];
    }
  }

  /** The table NOTE_ALIASES itself, entry by entry. */
  lemma NormalizeMatchesAliasTable()
    ensures NormalizeNoteName("Db") == "C#" && NormalizeNoteName("Eb") == "D#" && NormalizeNoteName("Gb") == "F#"
    ensures NormalizeNoteName("Ab") == "G#" && NormalizeNoteName("Bb") == "A#"
    ensures NormalizeNoteName("Db4") == "C#4" && NormalizeNoteName("Eb4") == "D#4" && NormalizeNoteName("Gb4") == "F#4"
    ensures NormalizeNoteName("Ab4") == "G#4" && NormalizeNoteName("Bb4") == "A#4"
    ensures NormalizeNoteName("Db5") == "C#5" && NormalizeNoteName("Eb5") == "D#5" && NormalizeNoteName("Gb5") == "F#5"
    ensures NormalizeNoteName("Ab5") == "G#5" && NormalizeNoteName("Bb5") == "A#5"
    ensures NormalizeNoteName("F#") == "F#" && NormalizeNoteName("C#") == "C#"
    ensures NormalizeNoteName("Cb") == "Cb" && NormalizeNoteName("Fb") == "Fb" && NormalizeNoteName("Db3") == "Db3"
  {
    AliasesOfOctave("");
    AliasesOfOctave("4");
    AliasesOfOctave("5");
  }

  /** The five flat entries of NOTE_ALIASES with one octave suffix. */
  lemma AliasesOfOctave(suffix: string)
    requires suffix in {"", "4", "5"}
    ensures NormalizeNoteName("Db" + suffix) == "C#" + suffix && NormalizeNoteName("Eb" + suffix) == "D#" + suffix
    ensures NormalizeNoteName("Gb" + suffix) == "F#" + suffix && NormalizeNoteName("Ab" + suffix) == "G#" + suffix
    ensures NormalizeNoteName("Bb" + suffix) == "A#" + suffix
  {
  }


  /** SCALES. */
  function ScaleIntervals(scaleType: string): Option<seq<int>> {
    match scaleType
    case "major" => Some([0, 2, 4, 5, 7, 9, 11])
    case "minor" => Some([0, 2, 3, 5, 7, 8, 10])
    case "harmonicMinor" => Some([0, 2, 3, 5, 7, 8, 11])
    case "melodicMinor" => Some([0, 2, 3, 5, 7, 9, 11])
    case "pentatonicMajor" => Some([0, 2, 4, 7, 9])
    case "pentatonicMinor" => Some([0, 3, 5, 7, 10])
    case "pentatonic" => Some([0, 2, 4, 7, 9])
    case "blues" => Some([0, 3, 5, 6, 7, 10])
    case "dorian" => Some([0, 2, 3, 5, 7, 9, 10])
    case "phrygian" => Some([0, 1, 3, 5, 7, 8, 10])
    case "lydian" => Some([0, 2, 4, 6, 7, 9, 11])
    case "mixolydian" => Some([0, 2, 4, 5, 7, 9, 10])
    case "locrian" => Some([0, 1, 3, 5, 6, 8, 10])
    case _ => None
  }

  /** CHORD_TYPES. */
  function ChordIntervals(chordType: string): Option<seq<int>> {
    match chordType
    case "major" => Some([0, 4, 7])
    case "minor" => Some([0, 3, 7])
    case "diminished" => Some([0, 3, 6])
    case "augmented" => Some([0, 4, 8])
    case "sus2" => Some([0, 2, 7])
    case "sus4" => Some([0, 5, 7])
    case "major7" => Some([0, 4, 7, 11])
    case "minor7" => Some([0, 3, 7, 10])
    case "dominant7" => Some([0, 4, 7, 10])
    case "seventh" => Some([0, 4, 7, 10])
    case "diminished7" => Some([0, 3, 6, 9])
    case "halfDiminished7" => Some([0, 3, 6, 10])
    case "augmented7" => Some([0, 4, 8, 10])
    case "add9" => Some([0, 4, 7, 14])
    case "add11" => Some([0, 4, 7, 17])
    case _ => None
  }

  /** ROMAN_NUMERALS: the zero-based scale degree of a numeral. */
  function RomanNumeral(numeral: string): (d: Option<int>)
    ensures d.Some? ==> 0 <= d.value < 7
  {
    match numeral
    case "I" => Some(0)
    case "II" => Some(1)
    case "III" => Some(2)
    case "IV" => Some(3)
    case "V" => Some(4)
    case "VI" => Some(5)
    case "VII" => Some(6)
    case "i" => Some(0)
    case "ii" => Some(1)
    case "iii" => Some(2)
    case "iv" => Some(3)
    case "v" => Some(4)
    case "vi" => Some(5)
    case "vii" => Some(6)
    case _ => None
  }

  predicate NoDigitAtEnd(s: string) {
    |s| > 0 && !IsDigit(s[|s| - 1])
  }

  lemma NoteNamesHaveNoDigits()
    ensures forall i :: 0 <= i < |NOTE_NAMES| ==> NoDigitAtEnd(NOTE_NAMES[i]) && !ContainsDigit(NOTE_NAMES[i])
  {
  }

  /** The names of the table are plain roots: no digit, nothing to
      normalise, found at their own index. */
  lemma PlainNoteName(k: int)
    requires 0 <= k < 12
    ensures !ContainsDigit(NOTE_NAMES[k])
    ensures NormalizeNoteName(NOTE_NAMES[k]) == NOTE_NAMES[k]
    ensures NoteIndex(NormalizeNoteName(NOTE_NAMES[k])) == k
  {
    NoteNamesHaveNoDigits();
    NoteIndexOfNames();
    var n := NOTE_NAMES[k];
    assert |n| == 1 || n[1] == '#';
  }

  datatype ParsedNote = ParsedNote(note: string, octave: int)

  /** parseNoteString: a string ending in a digit splits into the text before
      its trailing digits and the number they spell; any other string is a
      bare note name in octave 4. */
  function ParseNoteString(noteStr: string): ParsedNote {
    if |noteStr| > 0 && IsDigit(noteStr[|noteStr| - 1]) then
      var k := TrailingDigitsStart(noteStr);
      ParsedNote(noteStr[..k], DigitsValue(noteStr[k..]))
    else
      ParsedNote(noteStr, 4)
  }

  /** The note is a prefix of the string; what follows it is the run of
      trailing digits and the octave is their value. */
  lemma ParseNoteStringContract(noteStr: string)
    ensures ParseNoteString(noteStr).note <= noteStr
    ensures |noteStr| > 0 && IsDigit(noteStr[|noteStr| - 1]) ==>
              var p := ParseNoteString(noteStr);
              |p.note| < |noteStr| && AllDigits(noteStr[|p.note|..]) &&
              p.octave == DigitsValue(noteStr[|p.note|..]) &&
              (|p.note| > 0 ==> !IsDigit(p.note[|p.note| - 1]))
    ensures !(|noteStr| > 0 && IsDigit(noteStr[|noteStr| - 1])) ==> ParseNoteString(noteStr) == ParsedNote(noteStr, 4)
  {
  }

  /** A name written with a non-negative octave parses back into the two parts. */
  lemma ParseSpelledNote(name: string, octave: nat)
    requires NoDigitAtEnd(name)
    ensures ParseNoteString(name + NatToString(octave)) == ParsedNote(name, octave)
  {
    var s := name + NatToString(octave);
    StripAppendedNumber(name, octave);
    assert s[|name|..] == NatToString(octave);
    DigitsOfNatToString(octave);
  }

  /** noteToMidi. */
  function NoteToMidi(noteName: string): Result<int, TheoryError> {
    var p := ParseNoteString(noteName);
    var noteIndex := NoteIndex(NormalizeNoteName(p.note));
    if noteIndex == -1 then Err(InvalidNoteName(p.note))
    else Ok(noteIndex + (p.octave + 1) * 12)
  }

  /** midiToNote. */
  function MidiToNote(midiNote: int): Result<string, TheoryError> {
    if midiNote < 0 || midiNote > 127 then Err(MidiOutOfRange(midiNote))
    else Ok(NOTE_NAMES[midiNote % 12] + IntToString(midiNote / 12 - 1))
  }

  /** The number spelled by a note name in octave `octave`, for octave >= 0. */
  lemma SpelledNoteToMidi(k: int, octave: nat)
    requires 0 <= k < 12
    ensures NoteToMidi(NOTE_NAMES[k] + NatToString(octave)) == Ok(k + 12 * (octave + 1))
  {
    PlainNoteName(k);
    NamedNoteToMidi(NOTE_NAMES[k], octave);
  }

  /** getNoteName writes a MIDI number 0..127 as its sharp name and octave. */
  lemma MidiToNoteSpelling(m: int)
    requires 0 <= m <= 127
    ensures m >= 12 ==> MidiToNote(m) == Ok(NOTE_NAMES[m % 12] + NatToString(m / 12 - 1))
    ensures m < 12 ==> MidiToNote(m) == Ok(NOTE_NAMES[m % 12] + "-" + NatToString(1))
  {
    if m < 12 {
      var n := NOTE_NAMES[m % 12];
      assert IntToString(m / 12 - 1) == "-" + NatToString(1);
      assert n + ("-" + NatToString(1)) == n + "-" + NatToString(1);
    } else {
      assert IntToString(m / 12 - 1) == NatToString(m / 12 - 1);
    }
  }

  /** midiToNote then noteToMidi is the identity from octave 0 (MIDI 12) up;
      the names of octave -1 ("C-1" ... "B-1") are not read back. */
  lemma MidiNoteRoundTrip(m: int)
    requires 0 <= m <= 127
    ensures m >= 12 ==> NoteToMidi(MidiToNote(m).value) == Ok(m)
    ensures m < 12 ==> NoteToMidi(MidiToNote(m).value).Err?
  {
    var k := m % 12;
    var n := NOTE_NAMES[k];
    PlainNoteName(k);
    MidiToNoteSpelling(m);
    if m >= 12 {
      var o: nat := m / 12 - 1;
      assert k + 12 * (o + 1) == m;
      NamedNoteToMidi(n, o);
    } else {
      NamedNegativeOctave(n, 1);
    }
  }

  /** noteToMidi then midiToNote gives the sharp spelling back. */
  lemma NoteNameRoundTrip(k: int, octave: nat)
    requires 0 <= k < 12 && k + 12 * (octave + 1) <= 127
    ensures NoteToMidi(NOTE_NAMES[k] + NatToString(octave)) == Ok(k + 12 * (octave + 1))
    ensures MidiToNote(k + 12 * (octave + 1)) == Ok(NOTE_NAMES[k] + NatToString(octave))
  {
    SpelledNoteToMidi(k, octave);
    var m := k + 12 * (octave + 1);
    assert m % 12 == k && m / 12 - 1 == octave;
    MidiToNoteSpelling(m);
  }

  /** Flat names are the sharp names one semitone below the next letter. */
  lemma FlatsNormalizeToSharps()
    ensures NoteIndex(NormalizeNoteName("Db")) == 1
    ensures NoteIndex(NormalizeNoteName("Eb")) == 3
    ensures NoteIndex(NormalizeNoteName("Gb")) == 6
    ensures NoteIndex(NormalizeNoteName("Ab")) == 8
    ensures NoteIndex(NormalizeNoteName("Bb")) == 10
    ensures forall i :: 0 <= i < 12 ==> NormalizeNoteName(NOTE_NAMES[i]) == NOTE_NAMES[i]
  {
  }

  /** The MIDI number of a root as generateScale and generateChord resolve it:
      a root containing a digit carries its own octave, any other root uses
      `octave`; the pair is written back as a string and read by noteToMidi. */
  function RootMidi(root: string, octave: int): Result<int, TheoryError> {
    var parsedRoot := if ContainsDigit(root) then ParseNoteString(root).note else root;
    var useOctave := if ContainsDigit(root) then ParseNoteString(root).octave else octave;
    var normalizedRoot := NormalizeNoteName(parsedRoot);
    if NoteIndex(normalizedRoot) == -1 then Err(InvalidNoteName(parsedRoot))
    else NoteToMidi(normalizedRoot + IntToString(useOctave))
  }

  /** A name noteToMidi knows is already normalised and ends in a letter
      or '#'. */
  lemma KnownName(n: string)
    requires NoteIndex(n) >= 0
    ensures NormalizeNoteName(n) == n && NoDigitAtEnd(n) && !ContainsDigit(n)
  {
  }

  /** A known name with '-' appended (how a negative octave begins) is not
      a note. */
  lemma DashedName(n: string)
    requires NoteIndex(n) >= 0
    ensures !ContainsDigit(n + "-") && (n + "-")[|n|] == '-'
    ensures NormalizeNoteName(n + "-") == n + "-" && NoteIndex(n + "-") == -1
  {
    KnownName(n);
    var p := n + "-";
    assert forall i :: 0 <= i < |n| ==> p[i] == n[i];
    assert p[|n|] == '-';
  }

  /** A known name followed by an octave o >= 0 reads as index + 12 * (o + 1). */
  lemma NamedNoteToMidi(n: string, octave: nat)
    requires NoteIndex(n) >= 0
    ensures NoteToMidi(n + NatToString(octave)) == Ok(NoteIndex(n) + 12 * (octave + 1))
  {
    KnownName(n);
    ParseSpelledNote(n, octave);
  }

  /** "X-n" reads as the note "X-" in octave n, which is not a note. */
  lemma NamedNegativeOctave(n: string, m: nat)
    requires NoteIndex(n) >= 0
    ensures NoteToMidi(n + "-" + NatToString(m)) == Err(InvalidNoteName(n + "-"))
  {
    var p := n + "-";
    DashedName(n);
    StripAppendedNumber(p, m);
    assert ParseNoteString(p + NatToString(m)).note == p;
  }

  /** Root resolution of a plain root in an octave o >= 0: index + 12 * (o + 1). */
  lemma RootMidiOfPlainRoot(root: string, octave: nat)
    requires !ContainsDigit(root) && NoteIndex(NormalizeNoteName(root)) >= 0
    ensures RootMidi(root, octave) == Ok(NoteIndex(NormalizeNoteName(root)) + 12 * (octave + 1))
  {
    var n := NormalizeNoteName(root);
    assert RootMidi(root, octave) == NoteToMidi(n + IntToString(octave));
    assert IntToString(octave) == NatToString(octave);
    NamedNoteToMidi(n, octave);
  }

  /** A negative octave is written "-n", which noteToMidi cannot read. */
  lemma RootMidiOfNegativeOctave(root: string, octave: int)
    requires !ContainsDigit(root) && NoteIndex(NormalizeNoteName(root)) >= 0 && octave < 0
    ensures RootMidi(root, octave) == Err(InvalidNoteName(NormalizeNoteName(root) + "-"))
  {
    var n := NormalizeNoteName(root);
    assert RootMidi(root, octave) == NoteToMidi(n + IntToString(octave));
    assert IntToString(octave) == "-" + NatToString(-octave);
    assert n + IntToString(octave) == n + "-" + NatToString(-octave);
    NamedNegativeOctave(n, -octave);
  }

  /** `x` is one of `intervals` (`intervals.includes(x)`), spelled out
      element by element. */
  predicate Among(x: int, intervals: seq<int>) {
    |intervals| > 0 && (intervals[0] == x || Among(x, intervals[1..]))
  }

  lemma {:induction false} AmongIsIn(x: int, intervals: seq<int>)
    ensures Among(x, intervals) <==> x in intervals
  {
    if |intervals| > 0 {
      AmongIsIn(x, intervals[1..]);
      assert intervals == [intervals[0]] + intervals[1..];
    }
  }

  /** `notes` are MIDI numbers (0 to 127), each an interval above `rootNote`. */
  predicate Voicing(rootNote: int, intervals: seq<int>, notes: seq<int>) {
    forall i :: 0 <= i < |notes| ==> 0 <= notes[i] <= 127 && Among(notes[i] - rootNote, intervals)
  }

  /** `intervals.map(i => rootNote + i).filter(n => n >= 0 && n <= 127)`. */
  function InRange(rootNote: int, intervals: seq<int>): seq<int> {
    FilterRange(Offset(rootNote, intervals), 0, 127)
  }

  /** The voiced notes are MIDI numbers on the intervals, at most one per
      interval: a number is kept exactly when it lies in 0..127 and is an
      interval above the root, and ascending intervals give ascending notes. */
  lemma InRangeContract(rootNote: int, intervals: seq<int>)
    ensures Voicing(rootNote, intervals, InRange(rootNote, intervals))
    ensures |InRange(rootNote, intervals)| <= |intervals|
    ensures forall x :: x in InRange(rootNote, intervals) <==> 0 <= x <= 127 && x - rootNote in intervals
    ensures StrictlyAscending(intervals) ==> StrictlyAscending(InRange(rootNote, intervals))
  {
    var offs := Offset(rootNote, intervals);
    var r := InRange(rootNote, intervals);
    FilterRangeContract(offs, 0, 127);
    OffsetMembers(rootNote, intervals);
    forall i | 0 <= i < |r|
      ensures 0 <= r[i] <= 127 && Among(r[i] - rootNote, intervals)
    {
      assert r[i] in r;
      AmongIsIn(r[i] - rootNote, intervals);
    }
    if StrictlyAscending(intervals) {
      assert StrictlyAscending(offs);
      FilterRangeAscends(offs, 0, 127);
    }
  }

  predicate Fits(rootNote: int, intervals: seq<int>) {
    forall i :: 0 <= i < |intervals| ==> 0 <= rootNote + intervals[i] <= 127
  }

  lemma InRangeComplete(rootNote: int, intervals: seq<int>)
    requires Fits(rootNote, intervals)
    ensures InRange(rootNote, intervals) == Offset(rootNote, intervals)
  {
    FilterRangeContract(Offset(rootNote, intervals), 0, 127);
  }

  /** The notes of `intervals` above a root, as generateScale and
      generateChord build them once the type is known. */
  function Voiced(root: string, octave: int, intervals: seq<int>): Result<seq<int>, TheoryError> {
    match RootMidi(root, octave)
    case Err(e) => Err(e)
    case Ok(rootNote) => Ok(InRange(rootNote, intervals))
  }

  /** A root that does not resolve is the error; otherwise the notes are
      exactly the MIDI numbers an interval above the resolved root, in the
      order of ascending intervals. */
  lemma VoicedContract(root: string, octave: int, intervals: seq<int>)
    ensures RootMidi(root, octave).Err? ==> Voiced(root, octave, intervals) == Err(RootMidi(root, octave).error)
    ensures Voiced(root, octave, intervals).Ok? ==>
              RootMidi(root, octave).Ok? && Voicing(RootMidi(root, octave).value, intervals, Voiced(root, octave, intervals).value) &&
              (forall x :: x in Voiced(root, octave, intervals).value <==> 0 <= x <= 127 && x - RootMidi(root, octave).value in intervals) &&
              (StrictlyAscending(intervals) ==> StrictlyAscending(Voiced(root, octave, intervals).value))
  {
    if RootMidi(root, octave).Ok? {
      InRangeContract(RootMidi(root, octave).value, intervals);
    }
  }

  lemma VoicedPlainRoot(root: string, octave: nat, intervals: seq<int>)
    requires !ContainsDigit(root) && NoteIndex(NormalizeNoteName(root)) >= 0
    requires Fits(NoteIndex(NormalizeNoteName(root)) + 12 * (octave + 1), intervals)
    ensures Voiced(root, octave, intervals) == Ok(Offset(NoteIndex(NormalizeNoteName(root)) + 12 * (octave + 1), intervals))
  {
    var base := NoteIndex(NormalizeNoteName(root)) + 12 * (octave + 1);
    RootMidiOfPlainRoot(root, octave);
    var rm := RootMidi(root, octave);
    assert rm == Ok(base);
    var v := Voiced(root, octave, intervals);
    assert v == Ok(InRange(base, intervals));
    InRangeComplete(base, intervals);
    assert v == Ok(Offset(base, intervals));
  }

  /** generateScale. */
  function GenerateScale(root: string, scaleType: string, octave: int): Result<seq<int>, TheoryError> {
    var intervals := ScaleIntervals(scaleType);
    if intervals.None? then Err(UnknownScaleType(scaleType))
    else Voiced(root, octave, intervals.value)
  }

  /** An unknown scale type is reported first, then a root that does not
      resolve; a scale is, in ascending order, every MIDI number (0 to 127)
      that lies one of the type's intervals above the root. */
  lemma GenerateScaleContract(root: string, scaleType: string, octave: int)
    ensures ScaleIntervals(scaleType).None? ==> GenerateScale(root, scaleType, octave) == Err(UnknownScaleType(scaleType))
    ensures ScaleIntervals(scaleType).Some? && RootMidi(root, octave).Err? ==>
              GenerateScale(root, scaleType, octave) == Err(RootMidi(root, octave).error)
    ensures GenerateScale(root, scaleType, octave).Ok? ==>
              RootMidi(root, octave).Ok? && ScaleIntervals(scaleType).Some? &&
              Voicing(RootMidi(root, octave).value, ScaleIntervals(scaleType).value, GenerateScale(root, scaleType, octave).value) &&
              StrictlyAscending(GenerateScale(root, scaleType, octave).value) &&
              forall x :: x in GenerateScale(root, scaleType, octave).value <==>
                            0 <= x <= 127 && x - RootMidi(root, octave).value in ScaleIntervals(scaleType).value
  {
    if ScaleIntervals(scaleType).Some? {
      IntervalsAscend(scaleType, "");
      VoicedContract(root, octave, ScaleIntervals(scaleType).value);
    }
  }

  /** generateChord. */
  function GenerateChord(root: string, chordType: string, octave: int): Result<seq<int>, TheoryError> {
    var intervals := ChordIntervals(chordType);
    if intervals.None? then Err(UnknownChordType(chordType))
    else Voiced(root, octave, intervals.value)
  }

  /** The same for chords. */
  lemma GenerateChordContract(root: string, chordType: string, octave: int)
    ensures ChordIntervals(chordType).None? ==> GenerateChord(root, chordType, octave) == Err(UnknownChordType(chordType))
    ensures ChordIntervals(chordType).Some? && RootMidi(root, octave).Err? ==>
              GenerateChord(root, chordType, octave) == Err(RootMidi(root, octave).error)
    ensures GenerateChord(root, chordType, octave).Ok? ==>
              RootMidi(root, octave).Ok? && ChordIntervals(chordType).Some? &&
              Voicing(RootMidi(root, octave).value, ChordIntervals(chordType).value, GenerateChord(root, chordType, octave).value) &&
              StrictlyAscending(GenerateChord(root, chordType, octave).value) &&
              forall x :: x in GenerateChord(root, chordType, octave).value <==>
                            0 <= x <= 127 && x - RootMidi(root, octave).value in ChordIntervals(chordType).value
  {
    if ChordIntervals(chordType).Some? {
      IntervalsAscend("", chordType);
      VoicedContract(root, octave, ChordIntervals(chordType).value);
    }
  }

  /** The intervals of every scale and chord rise strictly from the root. */
  lemma IntervalsAscend(scaleType: string, chordType: string)
    ensures ScaleIntervals(scaleType).Some? ==> StrictlyAscending(ScaleIntervals(scaleType).value)
    ensures ChordIntervals(chordType).Some? ==> StrictlyAscending(ChordIntervals(chordType).value)
  {
    if ScaleIntervals(scaleType).Some? {
      StepsAscend(ScaleIntervals(scaleType).value);
    }
    if ChordIntervals(chordType).Some? {
      StepsAscend(ChordIntervals(chordType).value);
    }
  }

  /** Intervals of every scale and chord are non-negative and below 18. */
  lemma IntervalsBounded(scaleType: string, chordType: string)
    ensures ScaleIntervals(scaleType).Some? ==>
              forall i :: 0 <= i < |ScaleIntervals(scaleType).value| ==> 0 <= ScaleIntervals(scaleType).value[i] <= 11
    ensures ChordIntervals(chordType).Some? ==>
              forall i :: 0 <= i < |ChordIntervals(chordType).value| ==> 0 <= ChordIntervals(chordType).value[i] <= 17
  {
  }

  /** With a plain note name (no digit) in an octave o >= 0, the scale holds
      every interval above index + 12 * (o + 1) once they all fit in 0..127. */
  lemma ScaleOfPlainRoot(root: string, scaleType: string, octave: nat)
    requires !ContainsDigit(root) && NoteIndex(NormalizeNoteName(root)) >= 0
    requires ScaleIntervals(scaleType).Some?
    requires Fits(NoteIndex(NormalizeNoteName(root)) + 12 * (octave + 1), ScaleIntervals(scaleType).value)
    ensures GenerateScale(root, scaleType, octave) ==
            Ok(Offset(NoteIndex(NormalizeNoteName(root)) + 12 * (octave + 1), ScaleIntervals(scaleType).value))
  {
    VoicedPlainRoot(root, octave, ScaleIntervals(scaleType).value);
  }

  /** A negative octave makes generateScale throw for every plain root. */
  lemma ScaleOfNegativeOctave(root: string, scaleType: string, octave: int)
    requires !ContainsDigit(root) && NoteIndex(NormalizeNoteName(root)) >= 0
    requires ScaleIntervals(scaleType).Some? && octave < 0
    ensures GenerateScale(root, scaleType, octave) == Err(InvalidNoteName(NormalizeNoteName(root) + "-"))
  {
    RootMidiOfNegativeOctave(root, octave);
  }

  /** The chord of a plain root, as for scales. */
  lemma ChordOfPlainRoot(root: string, chordType: string, octave: nat)
    requires !ContainsDigit(root) && NoteIndex(NormalizeNoteName(root)) >= 0
    requires ChordIntervals(chordType).Some?
    requires Fits(NoteIndex(NormalizeNoteName(root)) + 12 * (octave + 1), ChordIntervals(chordType).value)
    ensures GenerateChord(root, chordType, octave) ==
            Ok(Offset(NoteIndex(NormalizeNoteName(root)) + 12 * (octave + 1), ChordIntervals(chordType).value))
  {
    VoicedPlainRoot(root, octave, ChordIntervals(chordType).value);
  }

  // ---------------------------------------------------------------------
  // Key signatures

  datatype Accidental = Sharp | Flat
  datatype KeySignature = KeySignature(keySignature: int, accidental: Accidental)

  /** KEY_SIGNATURES. */
  function FixedKeySignature(key: string): Option<KeySignature> {
    match key
    case "C major" => Some(KeySignature(0, Sharp))
    case "G major" => Some(KeySignature(1, Sharp))
    case "D major" => Some(KeySignature(2, Sharp))
    case "A major" => Some(KeySignature(3, Sharp))
    case "E major" => Some(KeySignature(4, Sharp))
    case "B major" => Some(KeySignature(5, Sharp))
    case "F# major" => Some(KeySignature(6, Sharp))
    case "C# major" => Some(KeySignature(7, Sharp))
    case "F major" => Some(KeySignature(1, Flat))
    case "Bb major" => Some(KeySignature(2, Flat))
    case "Eb major" => Some(KeySignature(3, Flat))
    case "Ab major" => Some(KeySignature(4, Flat))
    case "Db major" => Some(KeySignature(5, Flat))
    case "Gb major" => Some(KeySignature(6, Flat))
    case "Cb major" => Some(KeySignature(7, Flat))
    case "A minor" => Some(KeySignature(0, Sharp))
    case "E minor" => Some(KeySignature(1, Sharp))
    case "B minor" => Some(KeySignature(2, Sharp))
    case "F# minor" => Some(KeySignature(3, Sharp))
    case "C# minor" => Some(KeySignature(4, Sharp))
    case "G# minor" => Some(KeySignature(5, Sharp))
    case "D# minor" => Some(KeySignature(6, Sharp))
    case "A# minor" => Some(KeySignature(7, Sharp))
    case "D minor" => Some(KeySignature(1, Flat))
    case "G minor" => Some(KeySignature(2, Flat))
    case "C minor" => Some(KeySignature(3, Flat))
    case "F minor" => Some(KeySignature(4, Flat))
    case "Bb minor" => Some(KeySignature(5, Flat))
    case "Eb minor" => Some(KeySignature(6, Flat))
    case "Ab minor" => Some(KeySignature(7, Flat))
    case _ => None
  }

  /** The local `sharpKeys` table of getKeySignature. */
  function SharpKeyPosition(root: string): Option<int> {
    match root
    case "C" => Some(0)
    case "G" => Some(1)
    case "D" => Some(2)
    case "A" => Some(3)
    case "E" => Some(4)
    case "B" => Some(5)
    case "F#" => Some(6)
    case "C#" => Some(7)
    case _ => None
  }

  /** The position found in `sharpKeys`, or the `{0, 'flat'}` result that a
      missing entry produces through `NaN`. */
  function SignatureOfPosition(position: Option<int>): KeySignature {
    match position
    case Some(p) => KeySignature(if p < 0 then -p else p, if p >= 0 then Sharp else Flat)
    case None => KeySignature(0, Flat)
  }

  /** getKeySignature. */
  function GetKeySignature(key: string): (r: Result<KeySignature, TheoryError>)
    ensures FixedKeySignature(key).Some? ==> r == Ok(FixedKeySignature(key).value)
    ensures r.Ok? ==> 0 <= r.value.keySignature <= 7
    ensures r.Err? <==>
              FixedKeySignature(key).None? &&
              (var parts := Split(key, ' ');
               (|parts| < 2 || (parts[1] != "major" && parts[1] != "minor")) ||
               (parts[1] == "minor" && NoteIndex(NormalizeNoteName(parts[0])) < 0))
  {
    if FixedKeySignature(key).Some? then Ok(FixedKeySignature(key).value)
    else
      var parts := Split(key, ' ');
      var root := parts[0];
      var mode := if |parts| > 1 then Some(parts[1]) else None;
      var normalizedRoot := NormalizeNoteName(root);
      if mode == Some("major") then
        Ok(SignatureOfPosition(SharpKeyPosition(normalizedRoot)))
      else if mode == Some("minor") then
        var rootIndex := NoteIndex(normalizedRoot);
        if rootIndex == -1 then Err(InvalidNoteName(root))
        else Ok(SignatureOfPosition(SharpKeyPosition(NOTE_NAMES[(rootIndex + 3) % 12])))
      else Err(InvalidMode(mode))
  }

  /** Outside the fixed table, a minor key is given the signature of the
      major key three semitones up, and that signature is read only from the
      sharp side of the circle of fifths. */
  lemma ComputedMinorUsesRelativeMajor(root: string)
    requires FixedKeySignature(root + " minor").None?
    requires ' ' !in root && NoteIndex(NormalizeNoteName(root)) >= 0
    ensures GetKeySignature(root + " minor") ==
            Ok(SignatureOfPosition(SharpKeyPosition(NOTE_NAMES[(NoteIndex(NormalizeNoteName(root)) + 3) % 12])))
  {
    assert root + " minor" == root + " " + "minor";
    SplitAfterRoot(root, "minor");
  }

  lemma {:induction false} SplitAfterRoot(root: string, mode: string)
    requires ' ' !in root && ' ' !in mode
    ensures Split(root + " " + mode, ' ') == [root, mode]
    decreases |root|
  {
    var s := root + " " + mode;
    if |root| == 0 {
      assert s == " " + mode;
      assert s[1..] == mode;
    } else {
      assert s[1..] == root[1..] + " " + mode;
      SplitAfterRoot(root[1..], mode);
      assert [s[0]] + root[1..] == root;
    }
  }

  // ---------------------------------------------------------------------
  // Chord progressions

  /** The scale as seven slots for the seven degrees; a slot holding `None`
      stands for `undefined`. */
  function Slots(scale: seq<int>): (r: seq<Option<int>>)
    ensures |r| == |scale| && forall i :: 0 <= i < |scale| ==> r[i] == Some(scale[i])
  {
    if |scale| == 0 then [] else [Some(scale[0])] + Slots(scale[1..])
  }

  /** `next[j]`, or `undefined` past its end. */
  function At(next: seq<int>, j: int): Option<int> {
    if 0 <= j < |next| then Some(next[j]) else None
  }

  /** What the completion loop appends: `nextOctaveScale[i - fullScale.length]`
      is read after every push, so each appended slot is the next octave's
      root. */
  function FilledAsWritten(scale: seq<int>, next: seq<int>): (r: seq<Option<int>>)
    requires |scale| < 7
    ensures |r| == 7
  {
    Slots(scale) + seq(7 - |scale|, _ => At(next, 0))
  }

  /** The completion loop of generateChordProgression. */
  method FillScale(scale: seq<int>, next: seq<int>) returns (fullScale: seq<Option<int>>)
    requires |scale| < 7
    ensures fullScale == FilledAsWritten(scale, next)
  {
    fullScale := Slots(scale);
    var i := |fullScale|;
    while i < 7
      invariant |scale| <= i <= 7 && |fullScale| == i
      invariant fullScale == Slots(scale) + seq(i - |scale|, _ => At(next, 0))
    {
      fullScale := fullScale + [At(next, i - |fullScale|)];
      i := i + 1;
    }
  }

  /** The evident intention of the completion loop: continue with the next
      octave's degrees in order. */
  function FilledIntended(scale: seq<int>, next: seq<int>): (r: seq<Option<int>>)
    requires |scale| < 7
    ensures |r| == 7
    ensures forall i :: |scale| <= i < 7 ==> r[i] == At(next, i - |scale|)
  {
    Slots(scale) + seq(7 - |scale|, j => At(next, j))
  }

  predicate StrictlyAscendingSlots(s: seq<Option<int>>) {
    (forall i :: 0 <= i < |s| ==> s[i].Some?) &&
    forall i, j :: 0 <= i < j < |s| ==> s[i].value < s[j].value
  }

  /** The intended completion of an ascending scale by an ascending next
      octave ascends through all seven degrees. */
  lemma FilledIntendedAscends(scale: seq<int>, next: seq<int>)
    requires |scale| < 7 && |scale| + |next| >= 7
    requires forall i, j :: 0 <= i < j < |scale| ==> scale[i] < scale[j]
    requires forall i, j :: 0 <= i < j < |next| ==> next[i] < next[j]
    requires |scale| > 0 ==> scale[|scale| - 1] < next[0]
    ensures StrictlyAscendingSlots(FilledIntended(scale, next))
  {
    var r := FilledIntended(scale, next);
    forall i, j | 0 <= i < j < 7 ensures r[i].Some? && r[j].Some? && r[i].value < r[j].value {
      if j < |scale| {
      } else if i >= |scale| {
      } else {
        assert scale[i] <= scale[|scale| - 1];
        assert next[0] <= next[j - |scale|];
      }
    }
  }

  /** The loop as written repeats the next octave's root: a scale of five
      or fewer notes gets the next octave's first note for both its sixth and
      seventh degrees, so the completed scale does not ascend, where the
      intended completion continues with the next octave's second note. */
  lemma FillScaleRepeatsNextRoot(scale: seq<int>, next: seq<int>)
    requires |scale| <= 5 && |next| >= 2
    ensures FilledAsWritten(scale, next)[5] == Some(next[0])
    ensures FilledAsWritten(scale, next)[6] == Some(next[0])
    ensures !StrictlyAscendingSlots(FilledAsWritten(scale, next))
    ensures FilledIntended(scale, next)[|scale|] == Some(next[0])
    ensures FilledIntended(scale, next)[|scale| + 1] == Some(next[1])
  {
    var w := FilledAsWritten(scale, next);
    assert w[5] == w[6];
  }

  /** The chord quality chosen for a degree, for the numeral as written. */
  function ChordQuality(mode: string, degree: int, numeral: string): string {
    if mode == "major" then
      (if degree in {0, 3, 4} then "major" else if degree in {1, 2, 5} then "minor" else "diminished")
    else if mode == "minor" then
      (if degree in {2, 5, 6} then "major" else if degree in {0, 3, 4} then "minor" else "diminished")
    else if numeral == ToUpper(numeral) then "major" else "minor"
  }

  /** The chord of one numeral of a progression. */
  function NumeralChord(numeral: string, fullScale: seq<Option<int>>, mode: string): Result<seq<int>, TheoryError>
    requires |fullScale| >= 7
  {
    match RomanNumeral(numeral)
    case None => Err(InvalidRomanNumeral(numeral))
    case Some(degree) => DegreeChord(fullScale[degree], ChordQuality(mode, degree, numeral))
  }

  /** The chord of quality `chordType` on one slot of the completed scale,
      named through midiToNote with its octave digit dropped. A missing slot
      passes midiToNote's range test (comparisons with `undefined` are
      false) and comes back as the number NaN, so `.replace` throws. */
  function DegreeChord(slot: Option<int>, chordType: string): Result<seq<int>, TheoryError> {
    match slot
    case None => Err(NotAFunction("midiToNote(...).replace"))
    case Some(rootNote) =>
      match MidiToNote(rootNote)
      case Err(e) => Err(e)
      case Ok(name) => GenerateChord(RemoveFirstDigit(name), chordType, rootNote / 12 - 1)
  }

  /** `progression.map(...)`: the first numeral that throws ends it. */
  function ProgressionChords(progression: seq<string>, fullScale: seq<Option<int>>, mode: string): Result<seq<seq<int>>, TheoryError>
    requires |fullScale| >= 7
  {
    AllOk(NumeralChords(progression, fullScale, mode))
  }

  /** The chord (or error) of each numeral, in order. */
  function NumeralChords(progression: seq<string>, fullScale: seq<Option<int>>, mode: string): (rs: seq<Result<seq<int>, TheoryError>>)
    requires |fullScale| >= 7
    ensures |rs| == |progression|
  {
    seq(|progression|, i requires 0 <= i < |progression| => NumeralChord(progression[i], fullScale, mode))
  }

  /** The scale generateChordProgression works on: the scale from `octave`,
      completed from the next octave when it has fewer than seven notes. */
  function FullScale(key: string, mode: string, octave: int): Result<seq<Option<int>>, TheoryError> {
    var normalizedKey := NormalizeNoteName(key);
    match GenerateScale(normalizedKey, mode, octave)
    case Err(e) => Err(e)
    case Ok(scale) =>
      if |scale| >= 7 then Ok(Slots(scale))
      else
        match GenerateScale(normalizedKey, mode, octave + 1)
        case Err(e) => Err(e)
        case Ok(next) => Ok(FilledAsWritten(scale, next))
  }

  /** A scale of fewer than seven notes is completed from the next octave. */
  lemma FullScaleOfShortScale(key: string, mode: string, octave: int, scale: seq<int>, next: seq<int>)
    requires GenerateScale(NormalizeNoteName(key), mode, octave) == Ok(scale) && |scale| < 7
    requires GenerateScale(NormalizeNoteName(key), mode, octave + 1) == Ok(next)
    ensures FullScale(key, mode, octave) == Ok(FilledAsWritten(scale, next))
  {
  }

  /** What generateChordProgression does with a scale of five or fewer
      notes (the pentatonic ones) on any plain key: the completed scale
      repeats the next octave's first note, so it does not ascend (C4
      pentatonic major: 60, 62, 64, 67, 69, then 72 and 72 again). */
  lemma ShortScaleFillRepeats(key: string, scaleType: string, octave: nat)
    requires !ContainsDigit(NormalizeNoteName(key)) && NoteIndex(NormalizeNoteName(NormalizeNoteName(key))) >= 0
    requires ScaleIntervals(scaleType).Some? && 2 <= |ScaleIntervals(scaleType).value| <= 5
    requires NoteIndex(NormalizeNoteName(NormalizeNoteName(key))) + 12 * (octave + 2) <= 116
    ensures FullScale(key, scaleType, octave).Ok?
    ensures |FullScale(key, scaleType, octave).value| == 7
    ensures FullScale(key, scaleType, octave).value[5] == FullScale(key, scaleType, octave).value[6]
    ensures !StrictlyAscendingSlots(FullScale(key, scaleType, octave).value)
  {
    var root := NormalizeNoteName(key);
    IntervalsBounded(scaleType, "");
    var k := NoteIndex(NormalizeNoteName(root));
    assert Fits(k + 12 * (octave + 1), ScaleIntervals(scaleType).value);
    assert Fits(k + 12 * (octave + 1 + 1), ScaleIntervals(scaleType).value);
    ScaleOfPlainRoot(root, scaleType, octave);
    ScaleOfPlainRoot(root, scaleType, octave + 1);
    assert |GenerateScale(root, scaleType, octave).value| == |ScaleIntervals(scaleType).value|;
    assert |GenerateScale(root, scaleType, octave + 1).value| == |ScaleIntervals(scaleType).value|;
    var scale := GenerateScale(root, scaleType, octave).value;
    var next := GenerateScale(root, scaleType, octave + 1).value;
    FillScaleRepeatsNextRoot(scale, next);
    FullScaleOfShortScale(key, scaleType, octave, scale, next);
  }

  /** generateChordProgression. */
  method GenerateChordProgression(progression: seq<string>, key: string, mode: string, octave: int)
    returns (r: Result<seq<seq<int>>, TheoryError>)
    ensures FullScale(key, mode, octave).Err? ==> r == Err(FullScale(key, mode, octave).error)
    ensures FullScale(key, mode, octave).Ok? ==>
              |FullScale(key, mode, octave).value| >= 7 &&
              r == ProgressionChords(progression, FullScale(key, mode, octave).value, mode)
  {
    var normalizedKey := NormalizeNoteName(key);
    var scale := GenerateScale(normalizedKey, mode, octave);
    if scale.Err? {
      return Err(scale.error);
    }
    var fullScale := Slots(scale.value);
    if |fullScale| < 7 {
      var next := GenerateScale(normalizedKey, mode, octave + 1);
      if next.Err? {
        return Err(next.error);
      }
      fullScale := FillScale(scale.value, next.value);
    }
    r := ProgressionChords(progression, fullScale, mode);
  }

  /** Every quality a progression uses is a triad at most 7 semitones wide. */
  lemma QualityIsTriad(mode: string, degree: int, numeral: string)
    ensures ChordIntervals(ChordQuality(mode, degree, numeral)).Some?
    ensures |ChordIntervals(ChordQuality(mode, degree, numeral)).value| == 3
    ensures forall i :: 0 <= i < 3 ==> 0 <= ChordIntervals(ChordQuality(mode, degree, numeral)).value[i] <= 7
  {
  }

  /** Dropping the octave digit from the name of a MIDI note 12 to 119
      leaves a plain root naming its pitch class. */
  lemma StrippedNoteName(rootNote: int)
    requires 12 <= rootNote < 120
    ensures MidiToNote(rootNote).Ok?
    ensures !ContainsDigit(RemoveFirstDigit(MidiToNote(rootNote).value))
    ensures NoteIndex(NormalizeNoteName(RemoveFirstDigit(MidiToNote(rootNote).value))) == rootNote % 12
  {
    var k := rootNote % 12;
    var n := NOTE_NAMES[k];
    var d := NatToString(rootNote / 12 - 1);
    PlainNoteName(k);
    MidiToNoteSpelling(rootNote);
    assert d == [DigitChar(rootNote / 12 - 1)];
    RemoveFirstDigitAfter(n, d);
    assert n + d[1..] == n;
  }

  /** The chord on a plain root naming the pitch class of `rootNote`, in
      the octave of `rootNote`, starts at `rootNote`. */
  lemma ChordOnPitchClass(nm: string, rootNote: int, chordType: string)
    requires 12 <= rootNote <= 119
    requires !ContainsDigit(nm) && NoteIndex(NormalizeNoteName(nm)) == rootNote % 12
    requires ChordIntervals(chordType).Some?
    requires forall i :: 0 <= i < |ChordIntervals(chordType).value| ==> 0 <= ChordIntervals(chordType).value[i] <= 7
    ensures GenerateChord(nm, chordType, rootNote / 12 - 1) == Ok(Offset(rootNote, ChordIntervals(chordType).value))
  {
    var iv := ChordIntervals(chordType).value;
    var o: nat := rootNote / 12 - 1;
    assert rootNote % 12 + 12 * (o + 1) == rootNote;
    assert Fits(rootNote, iv);
    VoicedPlainRoot(nm, o, iv);
    assert GenerateChord(nm, chordType, o) == Voiced(nm, o, iv);
  }

  /** A triad on a scale note of octaves 0 to 8 starts at that note. */
  lemma DegreeChordOnNote(rootNote: int, chordType: string)
    requires 12 <= rootNote <= 119
    requires ChordIntervals(chordType).Some?
    requires forall i :: 0 <= i < |ChordIntervals(chordType).value| ==> 0 <= ChordIntervals(chordType).value[i] <= 7
    ensures DegreeChord(Some(rootNote), chordType) == Ok(Offset(rootNote, ChordIntervals(chordType).value))
  {
    StrippedNoteName(rootNote);
    var name := MidiToNote(rootNote).value;
    assert MidiToNote(rootNote) == Ok(name);
    assert DegreeChord(Some(rootNote), chordType) == GenerateChord(RemoveFirstDigit(name), chordType, rootNote / 12 - 1);
    ChordOnPitchClass(RemoveFirstDigit(name), rootNote, chordType);
  }

  /** Each chord of a progression is built on the scale note of its degree,
      in that note's own octave (C0 = MIDI 12 and up). */
  lemma NumeralChordOnDegree(numeral: string, fullScale: seq<Option<int>>, mode: string)
    requires |fullScale| >= 7 && RomanNumeral(numeral).Some?
    requires fullScale[RomanNumeral(numeral).value].Some?
    requires 12 <= fullScale[RomanNumeral(numeral).value].value <= 119
    ensures ChordIntervals(ChordQuality(mode, RomanNumeral(numeral).value, numeral)).Some?
    ensures NumeralChord(numeral, fullScale, mode) ==
            Ok(Offset(fullScale[RomanNumeral(numeral).value].value,
                      ChordIntervals(ChordQuality(mode, RomanNumeral(numeral).value, numeral)).value))
  {
    var degree := RomanNumeral(numeral).value;
    var chordType := ChordQuality(mode, degree, numeral);
    QualityIsTriad(mode, degree, numeral);
    DegreeChordOnNote(fullScale[degree].value, chordType);
  }

  /** A numeral whose degree falls on a slot left `undefined` by the
      completion loop throws the TypeError of `.replace` on NaN. When the
      next octave yields no note at all (its root is above 127), every slot
      past the partial scale is such a slot. */
  lemma NumeralOnMissingSlotThrows(numeral: string, scale: seq<int>, next: seq<int>, mode: string)
    requires |scale| < 7 && RomanNumeral(numeral).Some? && RomanNumeral(numeral).value >= |scale|
    ensures |next| == 0 ==> FilledAsWritten(scale, next)[RomanNumeral(numeral).value].None?
    ensures FilledAsWritten(scale, next)[RomanNumeral(numeral).value].None? ==>
              NumeralChord(numeral, FilledAsWritten(scale, next), mode) == Err(NotAFunction("midiToNote(...).replace"))
    ensures FilledAsWritten(scale, next)[RomanNumeral(numeral).value].None? <==> |next| == 0
  {
    var f := FilledAsWritten(scale, next);
    var d := RomanNumeral(numeral).value;
    assert f[d] == At(next, 0);
  }

  /** The name of a MIDI note of octave -1 (below 12) is "X-1"; dropping its
      first digit leaves "X-", which is not a note. */
  lemma StrippedLowNoteName(rootNote: int)
    requires 0 <= rootNote < 12
    ensures MidiToNote(rootNote).Ok?
    ensures !ContainsDigit(RemoveFirstDigit(MidiToNote(rootNote).value))
    ensures NoteIndex(NormalizeNoteName(RemoveFirstDigit(MidiToNote(rootNote).value))) == -1
  {
    var n := NOTE_NAMES[rootNote % 12];
    PlainNoteName(rootNote % 12);
    MidiToNoteSpelling(rootNote);
    DashedName(n);
    var d := NatToString(1);
    assert d == "1";
    RemoveFirstDigitAfter(n + "-", d);
    assert (n + "-") + d[1..] == n + "-";
  }

  /** A root without digits that is not a note makes generateChord throw. */
  lemma ChordOfUnknownRoot(root: string, chordType: string, octave: int)
    requires !ContainsDigit(root) && NoteIndex(NormalizeNoteName(root)) == -1
    ensures GenerateChord(root, chordType, octave).Err?
  {
    assert RootMidi(root, octave) == Err(InvalidNoteName(root));
  }

  /** An octave -1 scale note (below MIDI 12) has no chord: the progression
      throws. */
  lemma NumeralChordBelowOctaveZero(numeral: string, fullScale: seq<Option<int>>, mode: string)
    requires |fullScale| >= 7 && RomanNumeral(numeral).Some?
    requires fullScale[RomanNumeral(numeral).value].Some?
    requires 0 <= fullScale[RomanNumeral(numeral).value].value < 12
    ensures NumeralChord(numeral, fullScale, mode).Err?
  {
    var degree := RomanNumeral(numeral).value;
    var rootNote := fullScale[degree].value;
    StrippedLowNoteName(rootNote);
    var name := MidiToNote(rootNote).value;
    var chordType := ChordQuality(mode, degree, numeral);
    ChordOfUnknownRoot(RemoveFirstDigit(name), chordType, rootNote / 12 - 1);
    assert DegreeChord(Some(rootNote), chordType) == GenerateChord(RemoveFirstDigit(name), chordType, rootNote / 12 - 1);
  }

  /** The triad on degree `d` stacked from the scale's own thirds, as
      semitones above the degree. */
  function StackedTriad(scale: seq<int>, d: int): seq<int>
    requires |scale| == 7 && 0 <= d < 7
  {
    [0, (scale[(d + 2) % 7] - scale[d]) % 12, (scale[(d + 4) % 7] - scale[d]) % 12]
  }

  /** The quality table of the major mode names exactly the triads stacked
      in thirds from the major scale: every chord of a major progression is
      diatonic. */
  lemma MajorQualitiesAreStackedThirds(d: int, numeral: string)
    requires 0 <= d < 7
    ensures ChordIntervals(ChordQuality("major", d, numeral)) == Some(StackedTriad(ScaleIntervals("major").value, d))
  {
    var ma := ScaleIntervals("major").value;
    assert ma == [0, 2, 4, 5, 7, 9, 11];
    var q := ChordQuality("major", d, numeral);
    var t := StackedTriad(ma, d);
    if d in {0, 3, 4} {
      assert q == "major";
      assert t == [0, 4, 7];
    } else if d in {1, 2, 5} {
      assert q == "minor";
      assert t == [0, 3, 7];
    } else {
      assert q == "diminished";
      assert t == [0, 3, 6];
    }
  }

  /** Likewise for the minor mode and the natural minor scale. */
  lemma MinorQualitiesAreStackedThirds(d: int, numeral: string)
    requires 0 <= d < 7
    ensures ChordIntervals(ChordQuality("minor", d, numeral)) == Some(StackedTriad(ScaleIntervals("minor").value, d))
  {
    var mi := ScaleIntervals("minor").value;
    assert mi == [0, 2, 3, 5, 7, 8, 10];
    var q := ChordQuality("minor", d, numeral);
    var t := StackedTriad(mi, d);
    if d in {2, 5, 6} {
      assert q == "major";
      assert t == [0, 4, 7];
    } else if d in {0, 3, 4} {
      assert q == "minor";
      assert t == [0, 3, 7];
    } else {
      assert q == "diminished";
      assert t == [0, 3, 6];
    }
  }
}
