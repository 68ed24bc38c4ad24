// The music-theory API of src/server/api/musicTheory.js: note names to MIDI
// numbers and back, scale and chord generation from the interval tables, and
// the chord identification of the analyze-chord handler.
module ServerTheoryApi {
  import opened JsSupport
  import opened NoteNames
  import opened NoteMap
  import opened Sorting

  /** The messages the helpers throw and the handlers answer with status 400. */
  datatype ApiError =
    | InvalidNoteName(note: string)
    | UnknownScaleType(scaleType: string)
    | UnknownChordType(chordType: string)
    | InvalidNotesArray

  // ---------------------------------------------------------------------
  // getMidiNote

  /** `/([A-G][b#]?)(\d)/` tried at position `i`: the letter with its
      accidental and the digit after it. The accidental is taken when a digit
      follows it; otherwise the digit must follow the letter. */
  function MatchAt(s: string, i: nat): (m: Option<(string, int)>)
    requires i < |s|
    ensures m.Some? ==> 0 <= m.value.1 < 10 && 1 <= |m.value.0| <= 2 && m.value.0[0] == s[i]
    ensures m.Some? ==> i + |m.value.0| < |s| && s[i..i + |m.value.0|] == m.value.0
    ensures m.Some? ==> IsDigit(s[i + |m.value.0|]) && m.value.1 == DigitValue(s[i + |m.value.0|])
    ensures m.Some? ==> NoteShape(m.value.0)
  {
    if !IsLetter(s[i]) then None
    else if i + 2 < |s| && (s[i + 1] == 'b' || s[i + 1] == '#') && IsDigit(s[i + 2]) then
      Some((s[i..i + 2], DigitValue(s[i + 2])))
    else if i + 1 < |s| && IsDigit(s[i + 1]) then
      Some((s[i..i + 1], DigitValue(s[i + 1])))
    else None
  }

  /** A letter with an optional accidental, as the first group matches it. */
  predicate NoteShape(note: string) {
    1 <= |note| <= 2 && IsLetter(note[0]) && (|note| == 2 ==> note[1] == 'b' || note[1] == '#')
  }

  /** `noteName.match(...)`: the leftmost match at or after position `i`. */
  function FirstMatch(s: string, i: nat): (m: Option<(string, int)>)
    ensures m.Some? ==> 0 <= m.value.1 < 10 && NoteShape(m.value.0)
    decreases |s| - i
  {
    if i >= |s| then None
    else match MatchAt(s, i)
      case Some(found) => Some(found)
      case None => FirstMatch(s, i + 1)
  }

  /** The note and octave getMidiNote goes on with: the match when the name
      has one, else the whole name and the given octave. */
  function ReadNote(noteName: string, octave: int): (string, int) {
    match FirstMatch(noteName, 0)
    case Some(found) => found
    case None => (noteName, octave)
  }

  /** `getMidiNote(noteName, octave)`: `12 + 12 * octave` plus the note's
      semitone in the `noteMap` table. */
  function GetMidiNote(noteName: string, octave: int): Result<int, ApiError> {
    var read := ReadNote(noteName, octave);
    match NoteMapSemitone(read.0)
    case None => Err(InvalidNoteName(read.0))
    case Some(semitone) => Ok(12 + read.1 * 12 + semitone)
  }

  /** A string without digits has no match. */
  lemma {:induction false} NoMatchWithoutDigit(s: string, i: nat)
    requires !ContainsDigit(s)
    ensures FirstMatch(s, i) == None
    decreases |s| - i
  {
    if i < |s| {
      NoMatchWithoutDigit(s, i + 1);
    }
  }

  /** The names of the table have no digit. */
  lemma TableNameHasNoDigit(name: string, semitone: int)
    requires (name, semitone) in NOTE_MAP
    ensures !ContainsDigit(name)
  {
    NoteMapSemitoneIsTable(name, semitone);
    forall q | 0 <= q < |name| ensures !IsDigit(name[q]) {
      NoteNameHasNoDigit(name, q);
    }
  }

  /** A name of the table with an octave digit reads as that name and octave. */
  lemma ReadNoteWithDigit(name: string, semitone: int, d: int, key: string)
    requires (name, semitone) in NOTE_MAP && 0 <= d < 10
    requires key == name + [DigitChar(d)]
    ensures ReadNote(key, 0) == (name, d)
  {
    NoteMapSemitoneIsTable(name, semitone);
    assert key[..|name|] == name;
    if |name| == 2 {
      assert key[0..2] == name;
    } else {
      assert key[0..1] == name;
    }
  }

  /** The result is read off the table: a number exactly when the note read
      from the name is a key of `noteMap` (`hasOwnProperty`), and then
      `12 + 12 * octave` plus the semitone the table gives it. */
  lemma GetMidiNoteIsTable(noteName: string, octave: int)
    ensures var read := ReadNote(noteName, octave);
      GetMidiNote(noteName, octave).Ok? ==>
        (read.0, GetMidiNote(noteName, octave).value - 12 - 12 * read.1) in NOTE_MAP
    ensures var read := ReadNote(noteName, octave);
      GetMidiNote(noteName, octave).Err? ==>
        GetMidiNote(noteName, octave).error == InvalidNoteName(read.0) &&
        forall v :: (read.0, v) !in NOTE_MAP
  {
    var read := ReadNote(noteName, octave);
    match NoteMapSemitone(read.0)
    case Some(semitone) =>
      NoteMapSemitoneIsTable(read.0, semitone);
    case None =>
      forall v ensures (read.0, v) !in NOTE_MAP {
        NoteMapSemitoneIsTable(read.0, v);
      }
  }

  /** A bare name of the table is in the given octave. */
  lemma GetMidiNoteOfName(name: string, semitone: int, octave: int)
    requires (name, semitone) in NOTE_MAP
    ensures GetMidiNote(name, octave) == Ok(12 + 12 * octave + semitone)
  {
    TableNameHasNoDigit(name, semitone);
    NoMatchWithoutDigit(name, 0);
    NoteMapSemitoneIsTable(name, semitone);
  }

  /** A name of the table followed by an octave digit is in that octave,
      whatever octave the caller passes. */
  lemma GetMidiNoteOfNameAndOctave(name: string, semitone: int, d: int, octave: int)
    requires (name, semitone) in NOTE_MAP && 0 <= d < 10
    ensures GetMidiNote(name + [DigitChar(d)], octave) == Ok(12 + 12 * d + semitone)
  {
    var key := name + [DigitChar(d)];
    ReadNoteWithDigit(name, semitone, d, key);
    assert ReadNote(key, octave) == ReadNote(key, 0);
    NoteMapSemitoneIsTable(name, semitone);
  }

  /** A name with neither a match nor a row in the table is refused. */
  lemma GetMidiNoteRejects(name: string, octave: int)
    requires !ContainsDigit(name)
    requires forall i :: 0 <= i < |NOTE_MAP| ==> NOTE_MAP[i].0 != name
    ensures GetMidiNote(name, octave) == Err(InvalidNoteName(name))
  {
    NoMatchWithoutDigit(name, 0);
    if NoteMapSemitone(name).Some? {
      NoteMapSemitoneIsTable(name, NoteMapSemitone(name).value);
    }
  }

  /** Reading the note a second time changes nothing: the note part of a
      match has no digit left to match. */
  lemma ReadNoteTwice(noteName: string, octave: int)
    ensures var read := ReadNote(noteName, octave);
      GetMidiNote(read.0, read.1) == GetMidiNote(noteName, octave)
  {
    var m := FirstMatch(noteName, 0);
    if m.Some? {
      var note := m.value.0;
      assert forall q :: 0 <= q < |note| ==> !IsDigit(note[q]) by {
        assert NoteShape(note);
      }
      NoMatchWithoutDigit(note, 0);
    }
  }

  // ---------------------------------------------------------------------
  // getNoteNameFromMidi

  /** `getNoteNameFromMidi(n)`: the sharp name at `n % 12` and the octave
      `floor(n / 12) - 1`. The remainder is JavaScript's, negative for a
      negative `n`, and the missing name then prints as "undefined". */
  function NoteNameFromMidi(midiNumber: int): (name: string)
    ensures |name| > 0
  {
    var index := JsRem(midiNumber, 12);
    (if index >= 0 then NOTE_NAMES[index] else "undefined") + IntToString(midiNumber / 12 - 1)
  }

  /** The name of a number for octaves 0 to 9 is the sharp name of its pitch
      class with the octave digit. */
  lemma NameOfPitch(k: int, d: int, m: int)
    requires 0 <= k < 12 && 0 <= d < 10 && m == 12 + 12 * d + k
    ensures NoteNameFromMidi(m) == NOTE_NAMES[k] + [DigitChar(d)]
  {
    assert m % 12 == k && m / 12 - 1 == d;
  }

  /** getNoteNameFromMidi inverts getMidiNote on every name of the table
      with an octave digit, a flat reading back as its sharp. */
  lemma NameOfMidiNote(name: string, semitone: int, d: int, octave: int, m: int)
    requires (name, semitone) in NOTE_MAP && 0 <= d < 10
    requires GetMidiNote(name + [DigitChar(d)], octave) == Ok(m)
    ensures 0 <= semitone < 12
    ensures NoteNameFromMidi(m) == NOTE_NAMES[semitone] + [DigitChar(d)]
  {
    GetMidiNoteOfNameAndOctave(name, semitone, d, octave);
    NoteMapSemitoneIsTable(name, semitone);
    NameOfPitch(semitone, d, m);
  }

  /** ... so a sharp or natural name with an octave digit reads back as
      itself. */
  lemma SharpNameRoundTrip(name: string, d: int, octave: int, m: int)
    requires NoteIndex(name) >= 0 && 0 <= d < 10
    requires GetMidiNote(name + [DigitChar(d)], octave) == Ok(m)
    ensures NoteNameFromMidi(m) == name + [DigitChar(d)]
  {
    var k := NoteIndex(name);
    NameAtIndex(name);
    NoteMapSemitoneIsTable(name, k);
    GetMidiNoteOfNameAndOctave(name, k, d, octave);
    NameOfPitch(k, d, m);
  }

  // ---------------------------------------------------------------------
  // generateScale and generateChord

  /** `scalePatterns`. */
  const SCALE_PATTERNS: seq<(string, seq<int>)> := [
    ("major", [0, 2, 4, 5, 7, 9, 11]),
    ("minor", [0, 2, 3, 5, 7, 8, 10]),
    ("pentatonic", [0, 2, 4, 7, 9]),
    ("blues", [0, 3, 5, 6, 7, 10]),
    ("dorian", [0, 2, 3, 5, 7, 9, 10]),
    ("phrygian", [0, 1, 3, 5, 7, 8, 10]),
    ("lydian", [0, 2, 4, 6, 7, 9, 11]),
    ("mixolydian", [0, 2, 4, 5, 7, 9, 10]),
    ("locrian", [0, 1, 3, 5, 6, 8, 10])
  ]

  /** `chordPatterns`, in its insertion order, which `Object.entries` keeps. */
  const CHORD_PATTERNS: seq<(string, seq<int>)> := [
    ("major", [0, 4, 7]),
    ("minor", [0, 3, 7]),
    ("diminished", [0, 3, 6]),
    ("augmented", [0, 4, 8]),
    ("seventh", [0, 4, 7, 10]),
    ("major7", [0, 4, 7, 11]),
    ("minor7", [0, 3, 7, 10]),
    ("sus2", [0, 2, 7]),
    ("sus4", [0, 5, 7])
  ]

  /** The shape every interval pattern has: it starts at the root and climbs
      strictly within one octave. */
  predicate PatternShape(p: seq<int>) {
    |p| > 0 && p[0] == 0 &&
    (forall j :: 0 < j < |p| ==> p[j - 1] < p[j]) &&
    (forall j :: 0 <= j < |p| ==> 0 <= p[j] < 12)
  }

  lemma PatternTables()
    ensures forall i :: 0 <= i < |SCALE_PATTERNS| ==> PatternShape(SCALE_PATTERNS[i].1)
    ensures forall i :: 0 <= i < |CHORD_PATTERNS| ==> PatternShape(CHORD_PATTERNS[i].1)
  {
  }

  /** What both generators return. */
  datatype Voicing = Voicing(root: string, kind: string, notes: seq<string>, midiNotes: seq<int>)

  /** `midiNotes.map(getNoteNameFromMidi)`. */
  function NamesFromMidi(midiNotes: seq<int>): (names: seq<string>)
    ensures |names| == |midiNotes|
  {
    seq(|midiNotes|, i requires 0 <= i < |midiNotes| => NoteNameFromMidi(midiNotes[i]))
  }

  /** The part generateScale and generateChord share once the pattern is
      known: the root's number, the pattern laid on it, and the names. */
  function VoicePattern(rootNote: string, octave: int, kind: string, pattern: seq<int>): Result<Voicing, ApiError> {
    match GetMidiNote(rootNote, octave)
    case Err(e) => Err(e)
    case Ok(rootMidi) =>
      var midiNotes := Offset(rootMidi, pattern);
      Ok(Voicing(rootNote, kind, NamesFromMidi(midiNotes), midiNotes))
  }

  /** `generateScale(root, scaleType)`. The type is looked up lower-cased and
      checked before the root. */
  function GenerateScale(root: string, scaleType: string): Result<Voicing, ApiError> {
    var read := ReadNote(root, 4);
    match Lookup(SCALE_PATTERNS, ToLower(scaleType))
    case None => Err(UnknownScaleType(scaleType))
    case Some(pattern) => VoicePattern(read.0, read.1, scaleType, pattern)
  }

  /** `generateChord(root, chordType)`, the same over `chordPatterns`. */
  function GenerateChord(root: string, chordType: string): Result<Voicing, ApiError> {
    var read := ReadNote(root, 4);
    match Lookup(CHORD_PATTERNS, ToLower(chordType))
    case None => Err(UnknownChordType(chordType))
    case Some(pattern) => VoicePattern(read.0, read.1, chordType, pattern)
  }

  /** Laying a pattern fails exactly when the root fails, and otherwise
      gives the root's number plus each interval in order, each named. */
  lemma VoicePatternContract(root: string, kind: string, pattern: seq<int>, r: Result<Voicing, ApiError>)
    requires r == VoicePattern(ReadNote(root, 4).0, ReadNote(root, 4).1, kind, pattern)
    ensures r.Err? <==> GetMidiNote(root, 4).Err?
    ensures r.Err? ==> r.error == GetMidiNote(root, 4).error
    ensures r.Ok? ==> r.value.root == ReadNote(root, 4).0 && r.value.kind == kind
    ensures r.Ok? ==> |r.value.midiNotes| == |pattern| && |r.value.notes| == |pattern|
    ensures r.Ok? ==> forall i :: 0 <= i < |pattern| ==> r.value.midiNotes[i] == GetMidiNote(root, 4).value + pattern[i]
    ensures r.Ok? ==> forall i :: 0 <= i < |r.value.notes| ==> r.value.notes[i] == NoteNameFromMidi(r.value.midiNotes[i])
  {
    ReadNoteTwice(root, 4);
  }

  /** An unknown scale type is refused whatever the root. */
  lemma GenerateScaleUnknown(root: string, scaleType: string)
    requires forall i :: 0 <= i < |SCALE_PATTERNS| ==> SCALE_PATTERNS[i].0 != ToLower(scaleType)
    ensures GenerateScale(root, scaleType) == Err(UnknownScaleType(scaleType))
  {
  }

  /** An unknown chord type is refused whatever the root. */
  lemma GenerateChordUnknown(root: string, chordType: string)
    requires forall i :: 0 <= i < |CHORD_PATTERNS| ==> CHORD_PATTERNS[i].0 != ToLower(chordType)
    ensures GenerateChord(root, chordType) == Err(UnknownChordType(chordType))
  {
  }

  /** The numbers start at `base` and climb strictly, less than an octave
      above it. */
  predicate Climbs(midiNotes: seq<int>, base: int) {
    |midiNotes| > 0 && midiNotes[0] == base &&
    (forall j :: 0 < j < |midiNotes| ==> midiNotes[j - 1] < midiNotes[j]) &&
    (forall j :: 0 <= j < |midiNotes| ==> midiNotes[j] < base + 12)
  }

  lemma VoicingClimbs(root: string, kind: string, pattern: seq<int>, r: Result<Voicing, ApiError>)
    requires PatternShape(pattern)
    requires r == VoicePattern(ReadNote(root, 4).0, ReadNote(root, 4).1, kind, pattern)
    ensures r.Ok? <==> GetMidiNote(root, 4).Ok?
    ensures r.Ok? ==> Climbs(r.value.midiNotes, GetMidiNote(root, 4).value)
  {
    VoicePatternContract(root, kind, pattern, r);
  }

  lemma ScalePatternShape(key: string, pattern: seq<int>)
    requires Lookup(SCALE_PATTERNS, key) == Some(pattern)
    ensures PatternShape(pattern)
  {
    PatternTables();
  }

  lemma ChordPatternShape(key: string, pattern: seq<int>)
    requires Lookup(CHORD_PATTERNS, key) == Some(pattern)
    ensures PatternShape(pattern)
  {
    PatternTables();
  }

  /** A known scale starts at the root (`getMidiNote(root, 4)`) and climbs
      strictly, less than an octave above it; it fails exactly when the root
      does. */
  lemma GenerateScaleClimbs(root: string, scaleType: string, pattern: seq<int>)
    requires Lookup(SCALE_PATTERNS, ToLower(scaleType)) == Some(pattern)
    ensures GenerateScale(root, scaleType).Ok? <==> GetMidiNote(root, 4).Ok?
    ensures GenerateScale(root, scaleType).Ok? ==> Climbs(GenerateScale(root, scaleType).value.midiNotes, GetMidiNote(root, 4).value)
  {
    ScalePatternShape(ToLower(scaleType), pattern);
    VoicingClimbs(root, scaleType, pattern, GenerateScale(root, scaleType));
  }

  /** A known chord starts at the root and climbs strictly, less than an
      octave above it; it fails exactly when the root does. */
  lemma GenerateChordClimbs(root: string, chordType: string, pattern: seq<int>)
    requires Lookup(CHORD_PATTERNS, ToLower(chordType)) == Some(pattern)
    ensures GenerateChord(root, chordType).Ok? <==> GetMidiNote(root, 4).Ok?
    ensures GenerateChord(root, chordType).Ok? ==> Climbs(GenerateChord(root, chordType).value.midiNotes, GetMidiNote(root, 4).value)
  {
    ChordPatternShape(ToLower(chordType), pattern);
    VoicingClimbs(root, chordType, pattern, GenerateChord(root, chordType));
  }

  // ---------------------------------------------------------------------
  // The analyze-chord handler

  /** `(note - testRoot) % 12`, moved up by 12 when negative. */
  function IntervalClass(note: int, testRoot: int): (c: int)
    ensures 0 <= c < 12
  {
    var interval := JsRem(note - testRoot, 12);
    if interval < 0 then interval + 12 else interval
  }

  /** The correction makes JavaScript's remainder the mathematical one. */
  lemma IntervalClassIsRemainder(note: int, testRoot: int)
    ensures IntervalClass(note, testRoot) == (note - testRoot) % 12
  {
    var x := note - testRoot;
    if x < 0 {
      var q := (-x) / 12;
      var r := (-x) % 12;
      assert -x == 12 * q + r;
      if r == 0 {
        RemainderUnique(x, 12, -q, 0);
      } else {
        RemainderUnique(x, 12, -q - 1, 12 - r);
      }
    }
  }

  /** `new Set(testIntervals)`: the interval classes of all notes above
      `testRoot`. */
  function ClassSet(sorted: seq<int>, testRoot: int): set<int> {
    set note | note in sorted :: IntervalClass(note, testRoot)
  }

  function ElemSet(pattern: seq<int>): set<int> {
    set x | x in pattern
  }

  /** The handler's test: the sets have the same size and every interval of
      the pattern is among the classes. */
  predicate Matches(pattern: seq<int>, classes: set<int>) {
    |ElemSet(pattern)| == |classes| && forall x :: x in pattern ==> x in classes
  }

  /** The test is set equality. */
  lemma MatchesIsEquality(pattern: seq<int>, classes: set<int>)
    ensures Matches(pattern, classes) <==> ElemSet(pattern) == classes
  {
    var p := ElemSet(pattern);
    if Matches(pattern, classes) {
      forall x | x in p ensures x in classes {
        assert x in pattern;
      }
      assert classes == p + (classes - p);
      assert p * (classes - p) == {};
      assert |classes - p| == 0;
    }
  }

  /** The first entry of `chordPatterns` from `k` on that the classes match. */
  function PatternFrom(classes: set<int>, k: nat): (r: Option<nat>)
    ensures r.Some? ==> k <= r.value < |CHORD_PATTERNS|
    decreases |CHORD_PATTERNS| - k
  {
    if k >= |CHORD_PATTERNS| then None
    else if Matches(CHORD_PATTERNS[k].1, classes) then Some(k)
    else PatternFrom(classes, k + 1)
  }

  /** The first pattern matching the classes above root `i`. */
  function RootPattern(sorted: seq<int>, i: nat): (r: Option<nat>)
    requires i < |sorted|
    ensures r.Some? ==> r.value < |CHORD_PATTERNS|
  {
    PatternFrom(ClassSet(sorted, sorted[i]), 0)
  }

  /** The first pattern matching above each root, in ascending order of
      the roots. */
  function RootPatterns(sorted: seq<int>): (ps: seq<Option<nat>>)
    ensures |ps| == |sorted|
  {
    seq(|sorted|, i requires 0 <= i < |sorted| => RootPattern(sorted, i))
  }

  /** The first root from index `i` on with a matching pattern, and that
      pattern. */
  function ChordFrom(ps: seq<Option<nat>>, i: nat): (r: Option<(nat, nat)>)
    ensures r.Some? ==> i <= r.value.0 < |ps| && ps[r.value.0] == Some(r.value.1)
    decreases |ps| - i
  {
    if i >= |ps| then None
    else match ps[i]
      case Some(k) => Some((i, k))
      case None => ChordFrom(ps, i + 1)
  }

  /** What analyze-chord may receive as `notes`: something that is not an
      array (missing, null, an object), or an array of numbers. */
  datatype ChordInput = NotAnArray | Notes(values: seq<int>)

  datatype ChordAnalysis = ChordAnalysis(root: string, chordType: string, inversion: int, notes: seq<string>)

  /** `getNoteNameFromMidi(n).charAt(0)`. */
  function RootLabel(n: int): (letter: string)
    ensures |letter| == 1
  {
    [NoteNameFromMidi(n)[0]]
  }

  /** The handler's answer, as a function of its input. */
  function Analyze(input: ChordInput): Result<ChordAnalysis, ApiError> {
    if input.NotAnArray? || |input.values| < 2 then Err(InvalidNotesArray)
    else
      var sorted := SortAsc(input.values);
      var names := NamesFromMidi(sorted);
      match ChordFrom(RootPatterns(sorted), 0)
      case Some(found) =>
        Ok(ChordAnalysis(StringOr(Some(RootLabel(sorted[found.0])), RootLabel(sorted[0])),
          CHORD_PATTERNS[found.1].0, found.0, names))
      case None =>
        Ok(ChordAnalysis(StringOr(None, RootLabel(sorted[0])), "unknown", 0, names))
  }

  /** The inner loop over `Object.entries(chordPatterns)`. */
  method MatchPattern(classes: set<int>) returns (k: Option<nat>)
    ensures k == PatternFrom(classes, 0)
  {
    var j := 0;
    while j < |CHORD_PATTERNS|
      invariant 0 <= j <= |CHORD_PATTERNS|
      invariant PatternFrom(classes, 0) == PatternFrom(classes, j)
    {
      if Matches(CHORD_PATTERNS[j].1, classes) {
        return Some(j);
      }
      j := j + 1;
    }
    return None;
  }

  /** The analyze-chord handler. */
  method AnalyzeChord(input: ChordInput) returns (r: Result<ChordAnalysis, ApiError>)
    ensures r == Analyze(input)
  {
    if input.NotAnArray? || |input.values| < 2 {
      return Err(InvalidNotesArray);
    }
    var sortedNotes := SortAsc(input.values);
    var found := false;
    var root: Option<string> := None;
    var chordType := "unknown";
    var inversion := 0;
    var i := 0;
    while i < |sortedNotes|
      invariant 0 <= i <= |sortedNotes|
      invariant ChordFrom(RootPatterns(sortedNotes), 0) == ChordFrom(RootPatterns(sortedNotes), i)
      invariant !found && root == None && chordType == "unknown" && inversion == 0
    {
      var testRoot := sortedNotes[i];
      var k := MatchPattern(ClassSet(sortedNotes, testRoot));
      assert k == RootPatterns(sortedNotes)[i];
      if k.Some? {
        found := true;
        root := Some(RootLabel(testRoot));
        chordType := CHORD_PATTERNS[k.value].0;
        inversion := i;
        break;
      }
      i := i + 1;
    }
    r := Ok(ChordAnalysis(StringOr(root, RootLabel(sortedNotes[0])), chordType, inversion, NamesFromMidi(sortedNotes)));
  }

  lemma {:induction false} PatternFromFirst(classes: set<int>, j: nat, k: nat)
    requires PatternFrom(classes, j) == Some(k)
    ensures j <= k < |CHORD_PATTERNS| && Matches(CHORD_PATTERNS[k].1, classes)
    ensures forall k' :: j <= k' < k ==> !Matches(CHORD_PATTERNS[k'].1, classes)
    decreases |CHORD_PATTERNS| - j
  {
    if !Matches(CHORD_PATTERNS[j].1, classes) {
      PatternFromFirst(classes, j + 1, k);
    }
  }

  lemma {:induction false} PatternFromNone(classes: set<int>, j: nat)
    requires PatternFrom(classes, j) == None
    ensures forall k' :: j <= k' < |CHORD_PATTERNS| ==> !Matches(CHORD_PATTERNS[k'].1, classes)
    decreases |CHORD_PATTERNS| - j
  {
    if j < |CHORD_PATTERNS| {
      PatternFromNone(classes, j + 1);
    }
  }

  lemma {:induction false} PatternFromOfFirst(classes: set<int>, j: nat, k: nat)
    requires j <= k < |CHORD_PATTERNS| && Matches(CHORD_PATTERNS[k].1, classes)
    requires forall k' :: j <= k' < k ==> !Matches(CHORD_PATTERNS[k'].1, classes)
    ensures PatternFrom(classes, j) == Some(k)
    decreases k - j
  {
    if j < k {
      PatternFromOfFirst(classes, j + 1, k);
    }
  }

  lemma {:induction false} PatternFromOfNone(classes: set<int>, j: nat)
    requires forall k' :: j <= k' < |CHORD_PATTERNS| ==> !Matches(CHORD_PATTERNS[k'].1, classes)
    ensures PatternFrom(classes, j) == None
    decreases |CHORD_PATTERNS| - j
  {
    if j < |CHORD_PATTERNS| {
      PatternFromOfNone(classes, j + 1);
    }
  }

  /** "Some pattern of the table is exactly the classes above root `i`." */
  predicate Identifies(sorted: seq<int>, i: int, k: int)
    requires 0 <= i < |sorted| && 0 <= k < |CHORD_PATTERNS|
  {
    ElemSet(CHORD_PATTERNS[k].1) == ClassSet(sorted, sorted[i])
  }

  lemma PatternFromIsFirst(sorted: seq<int>, i: nat, k: nat)
    requires i < |sorted| && k < |CHORD_PATTERNS| && Identifies(sorted, i, k)
    requires forall k' :: 0 <= k' < k ==> !Identifies(sorted, i, k')
    ensures RootPattern(sorted, i) == Some(k)
  {
    var classes := ClassSet(sorted, sorted[i]);
    forall k' | 0 <= k' <= k ensures Matches(CHORD_PATTERNS[k'].1, classes) <==> Identifies(sorted, i, k') {
      MatchesIsEquality(CHORD_PATTERNS[k'].1, classes);
    }
    PatternFromOfFirst(classes, 0, k);
  }

  lemma PatternFromIsNone(sorted: seq<int>, i: nat)
    requires i < |sorted|
    requires forall k' :: 0 <= k' < |CHORD_PATTERNS| ==> !Identifies(sorted, i, k')
    ensures RootPattern(sorted, i) == None
  {
    var classes := ClassSet(sorted, sorted[i]);
    forall k' | 0 <= k' < |CHORD_PATTERNS| ensures !Matches(CHORD_PATTERNS[k'].1, classes) {
      assert !Identifies(sorted, i, k');
      MatchesIsEquality(CHORD_PATTERNS[k'].1, classes);
    }
    PatternFromOfNone(classes, 0);
  }

  lemma {:induction false} ChordFromOfFirst(ps: seq<Option<nat>>, j: nat, i: nat, k: nat)
    requires j <= i < |ps| && ps[i] == Some(k)
    requires forall i' :: j <= i' < i ==> ps[i'] == None
    ensures ChordFrom(ps, j) == Some((i, k))
    decreases i - j
  {
    if j < i {
      ChordFromOfFirst(ps, j + 1, i, k);
    }
  }

  lemma {:induction false} ChordFromOfNone(ps: seq<Option<nat>>, j: nat)
    requires forall i' :: j <= i' < |ps| ==> ps[i'] == None
    ensures ChordFrom(ps, j) == None
    decreases |ps| - j
  {
    if j < |ps| {
      ChordFromOfNone(ps, j + 1);
    }
  }

  /** Fewer than two notes, or no array at all, is refused. */
  lemma AnalyzeRejects(input: ChordInput)
    ensures Analyze(input).Err? <==> input.NotAnArray? || |input.values| < 2
    ensures Analyze(input).Err? ==> Analyze(input).error == InvalidNotesArray
  {
  }

  /** The notes of the answer are the names of the input in ascending order. */
  lemma AnalyzeNamesSortedNotes(values: seq<int>, sorted: seq<int>)
    requires |values| >= 2
    requires Ascending(sorted) && multiset(sorted) == multiset(values)
    ensures Analyze(Notes(values)).Ok?
    ensures Analyze(Notes(values)).value.notes == NamesFromMidi(sorted)
  {
    AscendingUnique(sorted, SortAsc(values));
  }

  /** The answer is the first identification, lowest root first and then in
      table order: the chord type is the pattern's name, the inversion is the
      root's index in ascending order, and the root is the first character
      of the root's name. */
  lemma AnalyzeIdentifies(values: seq<int>, sorted: seq<int>, i: nat, k: nat)
    requires |values| >= 2 && sorted == SortAsc(values)
    requires i < |sorted| && k < |CHORD_PATTERNS| && Identifies(sorted, i, k)
    requires forall i', k' :: 0 <= i' < i && 0 <= k' < |CHORD_PATTERNS| ==> !Identifies(sorted, i', k')
    requires forall k' :: 0 <= k' < k ==> !Identifies(sorted, i, k')
    ensures Analyze(Notes(values)).Ok?
    ensures var r := Analyze(Notes(values)).value;
      r.chordType == CHORD_PATTERNS[k].0 && r.inversion == i && r.root == RootLabel(sorted[i])
  {
    var ps := RootPatterns(sorted);
    forall i' | 0 <= i' < i ensures ps[i'] == None {
      PatternFromIsNone(sorted, i');
    }
    PatternFromIsFirst(sorted, i, k);
    ChordFromOfFirst(ps, 0, i, k);
  }

  /** With no identification at all the chord is "unknown", in root position,
      labelled by its lowest note. */
  lemma AnalyzeUnknown(values: seq<int>, sorted: seq<int>)
    requires |values| >= 2 && sorted == SortAsc(values)
    requires forall i', k' :: 0 <= i' < |sorted| && 0 <= k' < |CHORD_PATTERNS| ==> !Identifies(sorted, i', k')
    ensures Analyze(Notes(values)).Ok?
    ensures var r := Analyze(Notes(values)).value;
      r.chordType == "unknown" && r.inversion == 0 && r.root == RootLabel(sorted[0])
  {
    var ps := RootPatterns(sorted);
    forall i' | 0 <= i' < |sorted| ensures ps[i'] == None {
      PatternFromIsNone(sorted, i');
    }
    ChordFromOfNone(ps, 0);
  }

  /** The root label is the letter alone: a sharp root loses its '#'. */
  lemma RootLabelIsLetter(n: int)
    requires n >= 0
    ensures RootLabel(n) == [NOTE_NAMES[n % 12][0]]
    ensures 'A' <= RootLabel(n)[0] <= 'G'
  {
  }

  // ---------------------------------------------------------------------
  // The reported inversion

  /** The inversion in its usual sense: the position in the pattern of the
      bass note's interval above the root (0 root position, 1 the third in
      the bass, 2 the fifth in the bass, ...). */
  function BassInversion(sorted: seq<int>, i: nat, k: nat): (inversion: int)
    requires i < |sorted| && k < |CHORD_PATTERNS|
    ensures -1 <= inversion < |CHORD_PATTERNS[k].1|
  {
    IndexOf(CHORD_PATTERNS[k].1, IntervalClass(sorted[0], sorted[i]))
  }

  /** For an identified chord it is a real position: the pattern's tone there
      is the bass note's interval above the root. */
  lemma BassInversionNamesTheBass(sorted: seq<int>, i: nat, k: nat)
    requires i < |sorted| && k < |CHORD_PATTERNS| && Identifies(sorted, i, k)
    ensures 0 <= BassInversion(sorted, i, k)
    ensures CHORD_PATTERNS[k].1[BassInversion(sorted, i, k)] == IntervalClass(sorted[0], sorted[i])
  {
    assert IntervalClass(sorted[0], sorted[i]) in ClassSet(sorted, sorted[i]);
  }

  /** `ElemSet(p) != c`, shown by an element of the pattern outside `c`. */
  lemma ElemSetDiffers(p: seq<int>, c: set<int>, x: int)
    requires x in p && x !in c
    ensures ElemSet(p) != c
  {
    assert x in ElemSet(p);
  }

  lemma ClassSetOfThree(a: int, b: int, c: int, root: int)
    ensures ClassSet([a, b, c], root) == {IntervalClass(a, root), IntervalClass(b, root), IntervalClass(c, root)}
  {
  }

  /** An interval of each pattern that is missing above E in E-G-C. */
  const MISSING_ABOVE_E: seq<int> := [4, 7, 6, 4, 4, 4, 7, 2, 5]

  /** An interval of each pattern that is missing above G in E-G-C. */
  const MISSING_ABOVE_G: seq<int> := [4, 3, 3, 4, 4, 4, 3, 2, 7]

  lemma ExampleSorted(sorted: seq<int>)
    requires Ascending(sorted) && multiset(sorted) == multiset([64, 67, 72])
    ensures sorted == [64, 67, 72]
  {
    var values := [64, 67, 72];
    assert Ascending(values);
    AscendingUnique(values, sorted);
  }

  lemma NoChordAboveE(sorted: seq<int>)
    requires sorted == [64, 67, 72]
    ensures forall k' :: 0 <= k' < |CHORD_PATTERNS| ==> !Identifies(sorted, 0, k')
  {
    ClassSetOfThree(64, 67, 72, 64);
    assert ClassSet(sorted, 64) == {0, 3, 8};
    forall k' | 0 <= k' < |CHORD_PATTERNS| ensures !Identifies(sorted, 0, k') {
      ElemSetDiffers(CHORD_PATTERNS[k'].1, {0, 3, 8}, MISSING_ABOVE_E[k']);
    }
  }

  lemma NoChordAboveG(sorted: seq<int>)
    requires sorted == [64, 67, 72]
    ensures forall k' :: 0 <= k' < |CHORD_PATTERNS| ==> !Identifies(sorted, 1, k')
  {
    ClassSetOfThree(64, 67, 72, 67);
    assert ClassSet(sorted, 67) == {9, 0, 5};
    forall k' | 0 <= k' < |CHORD_PATTERNS| ensures !Identifies(sorted, 1, k') {
      ElemSetDiffers(CHORD_PATTERNS[k'].1, {9, 0, 5}, MISSING_ABOVE_G[k']);
    }
  }

  lemma MajorAboveC(sorted: seq<int>)
    requires sorted == [64, 67, 72]
    ensures Identifies(sorted, 2, 0)
  {
    ClassSetOfThree(64, 67, 72, 72);
    assert ClassSet(sorted, 72) == {4, 7, 0};
    assert ElemSet([0, 4, 7]) == {4, 7, 0};
  }

  /** C major with E in the bass (E4 G4 C5), which the repository's tests
      call the first inversion, is reported with inversion 2: C is the third
      note in ascending order. The bass inversion is 1. */
  lemma FirstInversionReportedAsSecond()
    ensures Analyze(Notes([64, 67, 72])).Ok?
    ensures Analyze(Notes([64, 67, 72])).value.chordType == "major"
    ensures Analyze(Notes([64, 67, 72])).value.root == "C"
    ensures Analyze(Notes([64, 67, 72])).value.inversion == 2
    ensures BassInversion([64, 67, 72], 2, 0) == 1
  {
    var sorted := [64, 67, 72];
    ExampleSorted(SortAsc(sorted));
    NoChordAboveE(sorted);
    NoChordAboveG(sorted);
    MajorAboveC(sorted);
    AnalyzeIdentifies(sorted, sorted, 2, 0);
    assert NoteNameFromMidi(72)[0] == 'C';
  }
}
