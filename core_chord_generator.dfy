// `ChordGenerator` of src/core/patternGenerator.js: note names to MIDI
// numbers, chords as a root plus a table of intervals, Roman-numeral
// progressions in a major or natural-minor key, and the block/arpeggio
// layouts of a progression in time. The tables are the constructor's
// fields; the methods only read them, so they become constants.
module CoreChordGenerator {
  import opened JsSupport
  import opened NoteNames

  /** A chord tone: a MIDI number, or NaN when the root was `undefined`. */
  datatype Tone = Pitch(midi: int) | NotANumber

  /** The `root` argument of `generateChord`. */
  datatype Root = RootName(name: string) | RootNumber(n: int) | RootUndefined | RootNull

  /** What `rootNote` holds after the conversion of a string root. */
  datatype RootValue = Midi(n: int) | Undefined | Null

  datatype GenError =
    | InvalidRootNote(root: Root)
    | InvalidChordType(chordType: string)
    | InvalidKey(key: string)
    | InvalidChordDegree(degree: string)

  /** The keys of the `chordIntervals` table. */
  datatype ChordKind = Major | Minor | Diminished | Augmented | Sus2 | Sus4 | Major7 | Minor7

  /** The keys of the `chordIntervals` table, in its order. */
  const CHORD_TYPE_NAMES: seq<string> :=
    ["major", "minor", "diminished", "augmented", "sus2", "sus4", "major7", "minor7"]

  /** `chordIntervals[type]`: the kind a key names, or none for any other
      string. */
  function ChordKindOf(chordType: string): Option<ChordKind> {
    if chordType == "major" then Some(Major)
    else if chordType == "minor" then Some(Minor)
    else if chordType == "diminished" then Some(Diminished)
    else if chordType == "augmented" then Some(Augmented)
    else if chordType == "sus2" then Some(Sus2)
    else if chordType == "sus4" then Some(Sus4)
    else if chordType == "major7" then Some(Major7)
    else if chordType == "minor7" then Some(Minor7)
    else None
  }

  /** The `chordIntervals` entry of each key. */
  function Intervals(kind: ChordKind): seq<int> {
    match kind
    case Major => [0, 4, 7]
    case Minor => [0, 3, 7]
    case Diminished => [0, 3, 6]
    case Augmented => [0, 4, 8]
    case Sus2 => [0, 2, 7]
    case Sus4 => [0, 5, 7]
    case Major7 => [0, 4, 7, 11]
    case Minor7 => [0, 3, 7, 10]
  }

  const MAJOR_DEGREES: seq<string> := ["I", "ii", "iii", "IV", "V", "vi", "viio"]
  const MINOR_DEGREES: seq<string> := ["i", "iio", "III", "iv", "v", "VI", "VII"]

  const MAJOR_SCALE: seq<int> := [0, 2, 4, 5, 7, 9, 11]
  const MINOR_SCALE: seq<int> := [0, 2, 3, 5, 7, 8, 10]

  const MAJOR_QUALITIES: seq<ChordKind> := [Major, Minor, Minor, Major, Major, Minor, Diminished]
  const MINOR_QUALITIES: seq<ChordKind> := [Minor, Diminished, Major, Minor, Minor, Major, Major]

  // ---------------------------------------------------------------------
  // noteToMidi and generateChord

  /** `noteToMidi`: the name's position in the sharp-spelled table placed in
      `octave`, or null for a name not in the table. */
  function NoteToMidi(name: string, octave: int): Option<int> {
    var k := NoteIndex(name);
    if k == -1 then None else Some(12 * (octave + 1) + k)
  }

  /** Null exactly for names outside the table; otherwise a number in the
      octave from which the name is read back. */
  lemma NoteToMidiContract(name: string, octave: int)
    ensures NoteToMidi(name, octave).None? <==> name !in NOTE_NAMES
    ensures NoteToMidi(name, octave).Some? ==>
              12 * (octave + 1) <= NoteToMidi(name, octave).value < 12 * (octave + 2)
    ensures NoteToMidi(name, octave).Some? ==>
              NOTE_NAMES[NoteToMidi(name, octave).value - 12 * (octave + 1)] == name
  {
    NoteIndexIsIndexOf(name);
  }

  /** Every table name converts back to its own position. */
  lemma NoteToMidiOfTable(k: int, octave: int)
    requires 0 <= k < 12
    ensures NoteToMidi(NOTE_NAMES[k], octave) == Some(12 * (octave + 1) + k)
  {
    NoteIndexOfNames();
  }

  function RootNoteOf(root: Root, octave: int): RootValue {
    match root
    case RootName(name) =>
      (match NoteToMidi(name, octave) case Some(m) => Midi(m) case None => Null)
    case RootNumber(n) => Midi(n)
    case RootUndefined => Undefined
    case RootNull => Null
  }

  /** One chord tone: `rootNote + interval`, NaN for an undefined root. */
  function ToneOf(rootNote: RootValue, interval: int): Tone {
    if rootNote.Midi? then Pitch(rootNote.n + interval) else NotANumber
  }

  /** `intervals.map(i => rootNote + i)`. */
  function Voice(rootNote: RootValue, intervals: seq<int>): (r: seq<Tone>)
    ensures |r| == |intervals|
    decreases |intervals|
  {
    if |intervals| == 0 then [] else [ToneOf(rootNote, intervals[0])] + Voice(rootNote, intervals[1..])
  }

  /** The tone at each position is the root plus the interval there. */
  lemma {:induction false} VoiceAt(rootNote: RootValue, intervals: seq<int>)
    ensures forall i :: 0 <= i < |intervals| ==> Voice(rootNote, intervals)[i] == ToneOf(rootNote, intervals[i])
    decreases |intervals|
  {
    if |intervals| > 0 {
      VoiceAt(rootNote, intervals[1..]);
      assert Voice(rootNote, intervals) == [ToneOf(rootNote, intervals[0])] + Voice(rootNote, intervals[1..]);
    }
  }

  /** `generateChord`: the root is checked before the type. */
  function GenerateChord(root: Root, chordType: string, octave: int): Result<seq<Tone>, GenError> {
    var rootNote := RootNoteOf(root, octave);
    if rootNote.Null? then Err(InvalidRootNote(root))
    else
      match ChordKindOf(chordType)
      case None => Err(InvalidChordType(chordType))
      case Some(kind) => Ok(Voice(rootNote, Intervals(kind)))
  }

  /** Exactly the table's keys name a kind, and each key is the name of
      the kind it finds. */
  lemma ChordKindOfName(chordType: string)
    ensures ChordKindOf(chordType).Some? <==> chordType in CHORD_TYPE_NAMES
    ensures ChordKindOf(chordType).Some? ==> KindName(ChordKindOf(chordType).value) == chordType
  {
  }

  /** The name of each kind is a key of the table and finds that kind. */
  lemma KindNames(kind: ChordKind)
    ensures KindName(kind) in CHORD_TYPE_NAMES
    ensures ChordKindOf(KindName(kind)) == Some(kind)
  {
  }

  function KindName(kind: ChordKind): string {
    match kind
    case Major => "major"
    case Minor => "minor"
    case Diminished => "diminished"
    case Augmented => "augmented"
    case Sus2 => "sus2"
    case Sus4 => "sus4"
    case Major7 => "major7"
    case Minor7 => "minor7"
  }

  /** An interval table: from the root upwards, within one octave. */
  predicate ChordShape(intervals: seq<int>) {
    && |intervals| >= 3
    && intervals[0] == 0
    && (forall i, j :: 0 <= i < j < |intervals| ==> intervals[i] < intervals[j])
    && (forall i :: 0 <= i < |intervals| ==> 0 <= intervals[i] < 12)
  }

  lemma ChordTableShape(kind: ChordKind)
    ensures ChordShape(Intervals(kind))
  {
  }

  /** The tones go up strictly from the root. */
  predicate RisesFrom(tones: seq<Tone>, root: int) {
    && |tones| >= 3
    && tones[0] == Pitch(root)
    && (forall i :: 0 <= i < |tones| ==> tones[i].Pitch? && root <= tones[i].midi < root + 12)
    && (forall i, j :: 0 <= i < j < |tones| ==> tones[i].midi < tones[j].midi)
  }

  /** The error cases of `generateChord`, in the order the code checks
      them. */
  lemma GenerateChordErrors(root: Root, chordType: string, octave: int)
    ensures GenerateChord(root, chordType, octave) == Err(InvalidRootNote(root)) <==>
            root.RootNull? || (root.RootName? && root.name !in NOTE_NAMES)
    ensures !root.RootNull? && !(root.RootName? && root.name !in NOTE_NAMES) ==>
              (GenerateChord(root, chordType, octave) == Err(InvalidChordType(chordType)) <==>
               chordType !in CHORD_TYPE_NAMES)
  {
    if root.RootName? {
      NoteToMidiContract(root.name, octave);
    }
    ChordKindOfName(chordType);
  }

  /** A chord on a known root is the root plus each interval of its type,
      in order, rising within the octave. */
  lemma GenerateChordOfRoot(root: Root, chordType: string, octave: int, m: int, kind: ChordKind)
    requires RootNoteOf(root, octave) == Midi(m)
    requires ChordKindOf(chordType) == Some(kind)
    ensures GenerateChord(root, chordType, octave).Ok?
    ensures |GenerateChord(root, chordType, octave).value| == |Intervals(kind)|
    ensures forall i :: 0 <= i < |Intervals(kind)| ==>
              GenerateChord(root, chordType, octave).value[i] == Pitch(m + Intervals(kind)[i])
    ensures RisesFrom(GenerateChord(root, chordType, octave).value, m)
  {
    ChordTableShape(kind);
    var m0 := Midi(m);
    assert RootNoteOf(root, octave) == m0;
    VoiceAt(m0, Intervals(kind));
  }

  /** A named root in the table sits in octave `octave`. */
  lemma RootOfName(name: string, octave: int)
    requires name in NOTE_NAMES
    ensures RootNoteOf(RootName(name), octave).Midi?
    ensures 12 * (octave + 1) <= RootNoteOf(RootName(name), octave).n < 12 * (octave + 2)
  {
    NoteToMidiContract(name, octave);
  }

  // ---------------------------------------------------------------------
  // generateProgression

  /** `degree.replace(/[^IiVv]/g, '')`. */
  function NumeralLetters(s: string): (r: string)
    ensures |r| <= |s|
    ensures forall i :: 0 <= i < |r| ==> r[i] in "IiVv"
    ensures (forall i :: 0 <= i < |s| ==> s[i] in "IiVv") ==> r == s
  {
    if |s| == 0 then ""
    else if s[0] in "IiVv" then
      assert forall i :: 0 <= i < |s| - 1 ==> s[1..][i] == s[i + 1];
      assert s == [s[0]] + s[1..];
      [s[0]] + NumeralLetters(s[1..])
    else NumeralLetters(s[1..])
  }

  /** Removing the non-numeral letters twice removes no more. */
  lemma NumeralLettersIdempotent(s: string)
    ensures NumeralLetters(NumeralLetters(s)) == NumeralLetters(s)
  {
  }

  /** Letters added around a numeral are ignored. */
  lemma {:induction false} NumeralLettersConcat(a: string, b: string)
    ensures NumeralLetters(a + b) == NumeralLetters(a) + NumeralLetters(b)
    decreases |a|
  {
    if |a| > 0 {
      assert (a + b)[0] == a[0];
      assert (a + b)[1..] == a[1..] + b;
      NumeralLettersConcat(a[1..], b);
    } else {
      assert a + b == b;
    }
  }

  /** Whether the key is major: any type other than `major` means minor. */
  function IsMajor(chordType: string): bool {
    chordType == "major"
  }

  function Degrees(major: bool): seq<string> {
    if major then MAJOR_DEGREES else MINOR_DEGREES
  }

  function ScaleSteps(major: bool): seq<int> {
    if major then MAJOR_SCALE else MINOR_SCALE
  }

  function Qualities(major: bool): seq<ChordKind> {
    if major then MAJOR_QUALITIES else MINOR_QUALITIES
  }

  /** `scaleNotes[degreeIndex]`: the pitch class of a scale degree. */
  function DegreeRoot(keyIndex: int, major: bool, degreeIndex: int): (pc: int)
    requires 0 <= keyIndex < 12 && 0 <= degreeIndex < 7
    ensures 0 <= pc < 12
  {
    (keyIndex + ScaleSteps(major)[degreeIndex]) % 12
  }

  /** `generateChord(name, kind, octave)` for a chord type the table has:
      the type lookup cannot fail there (KindNames). */
  function ChordOn(root: Root, kind: ChordKind, octave: int): Result<seq<Tone>, GenError> {
    var rootNote := RootNoteOf(root, octave);
    if rootNote.Null? then Err(InvalidRootNote(root)) else Ok(Voice(rootNote, Intervals(kind)))
  }

  lemma ChordOnIsGenerateChord(root: Root, kind: ChordKind, octave: int)
    ensures ChordOn(root, kind, octave) == GenerateChord(root, KindName(kind), octave)
  {
    KindNames(kind);
  }

  /** The position of a progression symbol in the key's degree table: a
      symbol containing 'o' is looked up whole, any other by its numeral
      letters alone. */
  function DegreeIndex(degree: string, major: bool): (i: int)
    ensures -1 <= i < 7
  {
    IndexOf(Degrees(major), if 'o' in degree then degree else NumeralLetters(degree))
  }

  /** The chord of one progression symbol. A symbol containing 'o' is
      diminished, and one absent from the table leaves the root undefined,
      which gives three NaN tones rather than an error; any other symbol
      takes the quality of its degree, and one absent from the table
      throws. */
  function DegreeChord(degree: string, keyIndex: int, major: bool, octave: int): Result<seq<Tone>, GenError>
    requires 0 <= keyIndex < 12
  {
    var degreeIndex := DegreeIndex(degree, major);
    if 'o' in degree then
      if degreeIndex == -1 then ChordOn(RootUndefined, Diminished, octave)
      else ChordOn(RootName(NOTE_NAMES[DegreeRoot(keyIndex, major, degreeIndex)]), Diminished, octave)
    else
      if degreeIndex == -1 then Err(InvalidChordDegree(degree))
      else
        ChordOn(RootName(NOTE_NAMES[DegreeRoot(keyIndex, major, degreeIndex)]),
                Qualities(major)[degreeIndex], octave)
  }

  /** `generateProgression`: the key must be a table name; the symbols map
      in order and the first invalid one throws. */
  function GenerateProgression(progression: seq<string>, key: string, chordType: string, octave: int)
    : Result<seq<seq<Tone>>, GenError>
  {
    var keyIndex := NoteIndex(key);
    if keyIndex == -1 then Err(InvalidKey(key))
    else
      AllOk(seq(|progression|, i requires 0 <= i < |progression| =>
                  DegreeChord(progression[i], keyIndex, IsMajor(chordType), octave)))
  }

  /** The chord on a table degree: the degree's pitch class in `octave`,
      voiced with the degree's quality (diminished for a symbol with 'o'). */
  lemma DegreeChordOfTable(degree: string, keyIndex: int, major: bool, octave: int,
                           degreeIndex: int, kind: ChordKind, root: int)
    requires 0 <= keyIndex < 12
    requires DegreeIndex(degree, major) == degreeIndex >= 0
    requires kind == if 'o' in degree then Diminished else Qualities(major)[degreeIndex]
    requires root == 12 * (octave + 1) + DegreeRoot(keyIndex, major, degreeIndex)
    ensures DegreeChord(degree, keyIndex, major, octave) == Ok(Voice(Midi(root), Intervals(kind)))
  {
    var pc := DegreeRoot(keyIndex, major, degreeIndex);
    DegreeChordOnName(degree, keyIndex, major, octave, degreeIndex, kind);
    NoteToMidiOfTable(pc, octave);
    ChordOnMidi(RootName(NOTE_NAMES[pc]), kind, octave, root);
  }

  /** The chord on a table degree is the chord on the degree's note name. */
  lemma DegreeChordOnName(degree: string, keyIndex: int, major: bool, octave: int,
                          degreeIndex: int, kind: ChordKind)
    requires 0 <= keyIndex < 12
    requires DegreeIndex(degree, major) == degreeIndex >= 0
    requires kind == if 'o' in degree then Diminished else Qualities(major)[degreeIndex]
    ensures DegreeChord(degree, keyIndex, major, octave) ==
            ChordOn(RootName(NOTE_NAMES[DegreeRoot(keyIndex, major, degreeIndex)]), kind, octave)
  {
  }

  lemma ChordOnMidi(root: Root, kind: ChordKind, octave: int, m: int)
    requires RootNoteOf(root, octave) == Midi(m)
    ensures ChordOn(root, kind, octave) == Ok(Voice(Midi(m), Intervals(kind)))
  {
  }

  /** A symbol without 'o' whose numeral letters are not a degree of the
      key's table throws. */
  lemma DegreeChordRejects(degree: string, keyIndex: int, major: bool, octave: int)
    requires 0 <= keyIndex < 12
    requires 'o' !in degree && NumeralLetters(degree) !in Degrees(major)
    ensures DegreeChord(degree, keyIndex, major, octave) == Err(InvalidChordDegree(degree))
  {
    assert DegreeIndex(degree, major) == -1;
  }

  /** A symbol with 'o' that is not in the table gives three NaN tones. */
  lemma DegreeChordUndefinedRoot(degree: string, keyIndex: int, major: bool, octave: int)
    requires 0 <= keyIndex < 12
    requires 'o' in degree && degree !in Degrees(major)
    ensures DegreeChord(degree, keyIndex, major, octave) == Ok([NotANumber, NotANumber, NotANumber])
  {
    assert DegreeIndex(degree, major) == -1;
    assert Voice(Undefined, Intervals(Diminished)) == [NotANumber, NotANumber, NotANumber];
  }

  /** An unknown key throws; otherwise the result has one chord per symbol,
      each the symbol's chord, or is the error of the first symbol that
      fails. */
  lemma GenerateProgressionContract(progression: seq<string>, key: string, chordType: string, octave: int)
    ensures key !in NOTE_NAMES ==> GenerateProgression(progression, key, chordType, octave) == Err(InvalidKey(key))
    ensures key in NOTE_NAMES ==>
              var r := GenerateProgression(progression, key, chordType, octave);
              (r.Ok? ==>
                 |r.value| == |progression| &&
                 forall i :: 0 <= i < |progression| ==>
                   DegreeChord(progression[i], NoteIndex(key), IsMajor(chordType), octave) == Ok(r.value[i]))
  {
    NoteIndexIsIndexOf(key);
  }

  lemma GenerateProgressionFails(progression: seq<string>, key: string, chordType: string, octave: int)
    requires key in NOTE_NAMES
    ensures var r := GenerateProgression(progression, key, chordType, octave);
            r.Err? ==>
              exists i :: (0 <= i < |progression| &&
                DegreeChord(progression[i], NoteIndex(key), IsMajor(chordType), octave) == Err(r.error) &&
                forall j :: 0 <= j < i ==> DegreeChord(progression[j], NoteIndex(key), IsMajor(chordType), octave).Ok?)
  {
    NoteIndexIsIndexOf(key);
    var rs := seq(|progression|, i requires 0 <= i < |progression| =>
                    DegreeChord(progression[i], NoteIndex(key), IsMajor(chordType), octave));
    assert forall i :: 0 <= i < |progression| ==> rs[i] == DegreeChord(progression[i], NoteIndex(key), IsMajor(chordType), octave);
  }

  // ---------------------------------------------------------------------
  // generatePattern

  /** One output of `generatePattern`: tones sounding together. */
  datatype Event = Event(notes: seq<Tone>, startTime: real, duration: real)

  /** The options of `generatePattern`; `None` is an absent key. */
  datatype PatternOptions = PatternOptions(
    progression: Option<seq<string>>, key: Option<string>, chordType: Option<string>,
    octave: Option<int>, duration: Option<real>, pattern: Option<string>)

  function BlockEvent(chord: seq<Tone>, chordIndex: nat, duration: real): Event {
    Event(chord, chordIndex as real * duration, duration)
  }

  /** The arpeggio of one chord: each tone alone, the chord's slot divided
      evenly between them. */
  function ArpeggioChunk(chord: seq<Tone>, chordIndex: nat, duration: real): (r: seq<Event>)
    ensures |r| == |chord|
  {
    seq(|chord|, n requires 0 <= n < |chord| =>
      Event([chord[n]], chordIndex as real * duration + n as real * duration / |chord| as real,
            duration / |chord| as real))
  }

  /** The events for the first `j` chords in the given layout. */
  function PatternEvents(chords: seq<seq<Tone>>, duration: real, arpeggio: bool, j: nat): seq<Event>
    requires j <= |chords|
  {
    if j == 0 then []
    else PatternEvents(chords, duration, arpeggio, j - 1) +
         (if arpeggio then ArpeggioChunk(chords[j - 1], j - 1, duration)
          else [BlockEvent(chords[j - 1], j - 1, duration)])
  }

  const DEFAULT_PROGRESSION: seq<string> := ["I", "IV", "V", "I"]

  /** The chords `generatePattern` lays out: the progression of its
      options, each absent option taking its default. */
  function PatternChords(options: PatternOptions): Result<seq<seq<Tone>>, GenError> {
    GenerateProgression(options.progression.GetOr(DEFAULT_PROGRESSION),
                        options.key.GetOr("C"), options.chordType.GetOr("major"),
                        options.octave.GetOr(4))
  }

  /** `generatePattern`: the progression from the options laid out as
      blocks or, for `arpeggio`, one tone at a time; any other pattern
      name is the block layout. */
  method GeneratePattern(options: PatternOptions) returns (r: Result<seq<Event>, GenError>)
    ensures PatternChords(options).Err? ==> r == Err(PatternChords(options).error)
    ensures PatternChords(options).Ok? ==>
              r == Ok(PatternEvents(PatternChords(options).value, options.duration.GetOr(1.0),
                                    options.pattern == Some("arpeggio"), |PatternChords(options).value|))
  {
    var chords := PatternChords(options);
    if chords.Err? {
      return Err(chords.error);
    }
    var events := LayOut(chords.value, options.duration.GetOr(1.0), options.pattern == Some("arpeggio"));
    return Ok(events);
  }

  /** The `forEach` over the chords. */
  method LayOut(chords: seq<seq<Tone>>, duration: real, arpeggio: bool) returns (result: seq<Event>)
    ensures result == PatternEvents(chords, duration, arpeggio, |chords|)
  {
    result := [];
    var chordIndex := 0;
    while chordIndex < |chords|
      invariant 0 <= chordIndex <= |chords|
      invariant result == PatternEvents(chords, duration, arpeggio, chordIndex)
    {
      var chord := chords[chordIndex];
      ghost var before := result;
      if arpeggio {
        var chunk := ArpeggiateChord(chord, chordIndex, duration);
        result := result + chunk;
      } else {
        result := result + [Event(chord, chordIndex as real * duration, duration)];
      }
      assert result == before + (if arpeggio then ArpeggioChunk(chords[chordIndex], chordIndex, duration)
                                 else [BlockEvent(chords[chordIndex], chordIndex, duration)]);
      chordIndex := chordIndex + 1;
    }
  }

  /** The inner loop of the arpeggio layout. */
  method ArpeggiateChord(chord: seq<Tone>, chordIndex: nat, duration: real) returns (chunk: seq<Event>)
    ensures chunk == ArpeggioChunk(chord, chordIndex, duration)
  {
    chunk := [];
    var noteIndex := 0;
    while noteIndex < |chord|
      invariant 0 <= noteIndex <= |chord|
      invariant chunk == ArpeggioChunk(chord, chordIndex, duration)[..noteIndex]
    {
      chunk := chunk + [Event([chord[noteIndex]],
                              chordIndex as real * duration + noteIndex as real * duration / |chord| as real,
                              duration / |chord| as real)];
      noteIndex := noteIndex + 1;
    }
  }

  /** Division of a slot into `len` equal parts: consecutive parts touch. */
  lemma PartsTouch(n: nat, len: nat, duration: real)
    requires n < len
    ensures n as real * duration / len as real + duration / len as real ==
            (n + 1) as real * duration / len as real
  {
    assert (n + 1) as real * duration == n as real * duration + duration;
  }

  /** The arpeggio of a chord holds its tones one per event, in order,
      and the first starts the chord's slot. */
  lemma ArpeggioTones(chord: seq<Tone>, chordIndex: nat, duration: real)
    requires |chord| > 0
    ensures forall n :: 0 <= n < |chord| ==> ArpeggioChunk(chord, chordIndex, duration)[n].notes == [chord[n]]
    ensures ArpeggioChunk(chord, chordIndex, duration)[0].startTime == chordIndex as real * duration
  {
  }

  /** Each arpeggio tone ends where the next starts. */
  lemma ArpeggioTouch(chord: seq<Tone>, chordIndex: nat, duration: real, n: nat)
    requires n + 1 < |chord|
    ensures ArpeggioChunk(chord, chordIndex, duration)[n].startTime +
            ArpeggioChunk(chord, chordIndex, duration)[n].duration ==
            ArpeggioChunk(chord, chordIndex, duration)[n + 1].startTime
  {
    PartsTouch(n, |chord|, duration);
  }

  /** The last arpeggio tone ends where the chord's slot ends. */
  lemma ArpeggioEnd(chord: seq<Tone>, chordIndex: nat, duration: real)
    requires |chord| > 0
    ensures ArpeggioChunk(chord, chordIndex, duration)[|chord| - 1].startTime +
            ArpeggioChunk(chord, chordIndex, duration)[|chord| - 1].duration ==
            (chordIndex + 1) as real * duration
  {
    var len := |chord|;
    PartsTouch(len - 1, len, duration);
    assert len as real * duration / len as real == duration;
    assert (chordIndex + 1) as real * duration == chordIndex as real * duration + duration;
  }

  /** The block layout has one event per chord, the chord at
      `chordIndex * duration` lasting `duration`. */
  lemma {:induction false} BlockLayout(chords: seq<seq<Tone>>, duration: real, j: nat)
    requires j <= |chords|
    ensures |PatternEvents(chords, duration, false, j)| == j
    ensures forall c :: 0 <= c < j ==>
              PatternEvents(chords, duration, false, j)[c] == Event(chords[c], c as real * duration, duration)
  {
    if j > 0 {
      BlockLayout(chords, duration, j - 1);
    }
  }

  /** The number of tones of the first `j` chords. */
  function ToneCount(chords: seq<seq<Tone>>, j: nat): nat
    requires j <= |chords|
  {
    if j == 0 then 0 else ToneCount(chords, j - 1) + |chords[j - 1]|
  }

  lemma {:induction false} ToneCountMonotonic(chords: seq<seq<Tone>>, a: nat, b: nat)
    requires a <= b <= |chords|
    ensures ToneCount(chords, a) <= ToneCount(chords, b)
    decreases b
  {
    if a < b {
      ToneCountMonotonic(chords, a, b - 1);
    }
  }

  /** The arpeggio layout has one event per tone. */
  lemma {:induction false} ArpeggioLength(chords: seq<seq<Tone>>, duration: real, j: nat)
    requires j <= |chords|
    ensures |PatternEvents(chords, duration, true, j)| == ToneCount(chords, j)
  {
    if j > 0 {
      ArpeggioLength(chords, duration, j - 1);
    }
  }

  /** In the arpeggio layout the `n`-th tone of chord `c` follows the
      tones of the chords before it. */
  lemma {:induction false} ArpeggioLayout(chords: seq<seq<Tone>>, duration: real, j: nat, c: nat, n: nat)
    requires c < j <= |chords| && n < |chords[c]|
    ensures ToneCount(chords, c) + n < |PatternEvents(chords, duration, true, j)|
    ensures PatternEvents(chords, duration, true, j)[ToneCount(chords, c) + n] ==
            ArpeggioChunk(chords[c], c, duration)[n]
  {
    ArpeggioLength(chords, duration, j - 1);
    var prev := PatternEvents(chords, duration, true, j - 1);
    var chunk := ArpeggioChunk(chords[j - 1], j - 1, duration);
    assert PatternEvents(chords, duration, true, j) == prev + chunk;
    if c < j - 1 {
      ArpeggioLayout(chords, duration, j - 1, c, n);
    }
  }

  /** A progression whose every symbol has a chord is the list of those
      chords. */
  lemma GenerateProgressionOfChords(progression: seq<string>, key: string, chordType: string, octave: int,
                                    keyIndex: int, chords: seq<seq<Tone>>)
    requires NoteIndex(key) == keyIndex && 0 <= keyIndex < 12
    requires |chords| == |progression|
    requires forall i :: 0 <= i < |progression| ==>
               DegreeChord(progression[i], keyIndex, IsMajor(chordType), octave) == Ok(chords[i])
    ensures GenerateProgression(progression, key, chordType, octave) == Ok(chords)
  {
    var rs := seq(|progression|, i requires 0 <= i < |progression| =>
                    DegreeChord(progression[i], keyIndex, IsMajor(chordType), octave));
    var r := AllOk(rs);
    assert r.Ok?;
    assert forall i :: 0 <= i < |rs| ==> r.value[i] == chords[i];
    assert r.value == chords;
  }

  /** The major triad on the root `m`. */
  lemma MajorVoice(m: int)
    ensures Voice(Midi(m), Intervals(Major)) == [Pitch(m), Pitch(m + 4), Pitch(m + 7)]
  {
    assert Voice(Midi(m), [0, 4, 7]) == [Pitch(m)] + Voice(Midi(m), [4, 7]);
    assert Voice(Midi(m), [4, 7]) == [Pitch(m + 4)] + Voice(Midi(m), [7]);
  }

  /** With every option absent: I-IV-V-I in C major around middle C. */
  lemma DefaultProgression()
    ensures GenerateProgression(DEFAULT_PROGRESSION, "C", "major", 4) ==
              Ok([[Pitch(60), Pitch(64), Pitch(67)], [Pitch(65), Pitch(69), Pitch(72)],
                  [Pitch(67), Pitch(71), Pitch(74)], [Pitch(60), Pitch(64), Pitch(67)]])
  {
    assert NoteIndex("C") == 0 by {
      NoteIndexOfNames();
      assert NOTE_NAMES[0] == "C";
    }
    var chords := [[Pitch(60), Pitch(64), Pitch(67)], [Pitch(65), Pitch(69), Pitch(72)],
                   [Pitch(67), Pitch(71), Pitch(74)], [Pitch(60), Pitch(64), Pitch(67)]];
    forall i | 0 <= i < 4
      ensures DegreeChord(DEFAULT_PROGRESSION[i], 0, IsMajor("major"), 4) == Ok(chords[i])
    {
      if i == 0 || i == 3 {
        DegreeOne();
      } else if i == 1 {
        DegreeFour();
      } else {
        DegreeFive();
      }
    }
    GenerateProgressionOfChords(DEFAULT_PROGRESSION, "C", "major", 4, 0, chords);
  }

  /** `I` in C major at octave 4. */
  lemma DegreeOne()
    ensures DegreeChord("I", 0, true, 4) == Ok([Pitch(60), Pitch(64), Pitch(67)])
  {
    assert DegreeRoot(0, true, 0) == 0;
    assert Qualities(true)[0] == Major;
    DegreeOneIndex();
    DegreeChordOfTable("I", 0, true, 4, 0, Major, 60);
    MajorVoice(60);
  }

  lemma DegreeOneIndex()
    ensures 'o' !in "I"
    ensures DegreeIndex("I", true) == 0
  {
    assert 'o' !in "I";
    assert NumeralLetters("I") == "I";
    assert IndexOf(MAJOR_DEGREES, "I") == 0;
  }

  /** `IV` in C major at octave 4. */
  lemma DegreeFour()
    ensures DegreeChord("IV", 0, true, 4) == Ok([Pitch(65), Pitch(69), Pitch(72)])
  {
    assert DegreeRoot(0, true, 3) == 5;
    assert Qualities(true)[3] == Major;
    DegreeFourIndex();
    DegreeChordOfTable("IV", 0, true, 4, 3, Major, 65);
    MajorVoice(65);
  }

  lemma DegreeFourIndex()
    ensures 'o' !in "IV"
    ensures DegreeIndex("IV", true) == 3
  {
    assert 'o' !in "IV";
    assert NumeralLetters("IV") == "IV";
    assert IndexOf(MAJOR_DEGREES, "IV") == 3;
  }

  /** `V` in C major at octave 4. */
  lemma DegreeFive()
    ensures DegreeChord("V", 0, true, 4) == Ok([Pitch(67), Pitch(71), Pitch(74)])
  {
    assert DegreeRoot(0, true, 4) == 7;
    assert Qualities(true)[4] == Major;
    DegreeFiveIndex();
    DegreeChordOfTable("V", 0, true, 4, 4, Major, 67);
    MajorVoice(67);
  }

  lemma DegreeFiveIndex()
    ensures 'o' !in "V"
    ensures DegreeIndex("V", true) == 4
  {
    assert 'o' !in "V";
    assert NumeralLetters("V") == "V";
    assert IndexOf(MAJOR_DEGREES, "V") == 4;
  }
}
