// src/server/routes/musicTheoryRoutes.js: the music-theory routes of the
// API server. The scale, chord and progression handlers call the core
// music theory (src/core/musicTheory.js) and name every MIDI number by its
// pitch class; the key-signature handler joins key and mode; analyze-chord
// classifies a chord by its intervals above the lowest note. The Express
// request and response plumbing is not modelled: each handler takes its
// parameters already read and gives back the JSON body or the error that
// becomes a 400 response.
module ServerTheoryRoutes {
  import opened JsSupport
  import opened NoteNames
  import opened Sorting
  import opened CoreMusicTheory

  // ---------------------------------------------------------------------
  // Names without octave

  /** `musicTheory.midiToNote(m).replace(/\d+$/, '')`. */
  function PitchClassName(midiNote: int): Result<string, TheoryError> {
    match MidiToNote(midiNote)
    case Err(e) => Err(e)
    case Ok(name) => Ok(StripTrailingDigits(name))
  }

  /** The name is the sharp name of the pitch class; below MIDI 12 the "-"
      of octave -1 is left over; outside 0 to 127 midiToNote throws. */
  lemma PitchClassNameSpelling(m: int)
    ensures (m < 0 || m > 127) ==> PitchClassName(m) == Err(MidiOutOfRange(m))
    ensures 12 <= m <= 127 ==> PitchClassName(m) == Ok(NOTE_NAMES[m % 12])
    ensures 0 <= m < 12 ==> PitchClassName(m) == Ok(NOTE_NAMES[m % 12] + "-")
  {
    if 0 <= m <= 127 {
      var n := NOTE_NAMES[m % 12];
      MidiToNoteSpelling(m);
      NoteNamesHaveNoDigits();
      assert NoDigitAtEnd(n);
      if m >= 12 {
        StripAppendedNumber(n, m / 12 - 1);
      } else {
        var p := n + "-";
        assert p[|p| - 1] == '-';
        StripAppendedNumber(p, 1);
        assert n + "-" + NatToString(1) == p + NatToString(1);
      }
    }
  }

  /** A pitch-class name holds no digit. */
  lemma PitchClassNameHasNoDigit(m: int)
    requires 0 <= m <= 127
    ensures PitchClassName(m).Ok? && !ContainsDigit(PitchClassName(m).value)
  {
    PitchClassNameSpelling(m);
    NoteNamesHaveNoDigits();
    var n := NOTE_NAMES[m % 12];
    assert !ContainsDigit(n);
    if m < 12 {
      var p := n + "-";
      assert forall i :: 0 <= i < |n| ==> p[i] == n[i];
      assert p[|n|] == '-';
    }
  }

  /** Notes of different pitch classes get different names. */
  lemma PitchClassNamesDiffer(a: int, b: int)
    requires 0 <= a <= 127 && 0 <= b <= 127 && a % 12 != b % 12
    ensures PitchClassName(a).value != PitchClassName(b).value
  {
    PitchClassNameSpelling(a);
    PitchClassNameSpelling(b);
    var x := NOTE_NAMES[a % 12];
    var y := NOTE_NAMES[b % 12];
    NoteNamesDistinct(a % 12, b % 12);
    if a < 12 && b < 12 {
      DashedNamesDistinct(x, y);
    } else if a < 12 {
      DashedNameIsNoName(x, b % 12);
    } else if b < 12 {
      DashedNameIsNoName(y, a % 12);
    }
  }

  lemma NoteNamesDistinct(j: int, k: int)
    requires 0 <= j < 12 && 0 <= k < 12 && j != k
    ensures NOTE_NAMES[j] != NOTE_NAMES[k]
  {
    NoteIndexOfNames();
  }

  lemma DashedNamesDistinct(x: string, y: string)
    requires x != y
    ensures x + "-" != y + "-"
  {
    var p, q := x + "-", y + "-";
    assert p[..|x|] == x && q[..|y|] == y;
  }

  /** A name with "-" appended is not a name of the table. */
  lemma DashedNameIsNoName(x: string, k: int)
    requires 0 <= k < 12
    ensures x + "-" != NOTE_NAMES[k]
  {
    var y := NOTE_NAMES[k];
    assert y[|y| - 1] != '-';
    assert (x + "-")[|x|] == '-';
  }

  /** `midiNotes.map(...)` naming each note; the first number midiToNote
      rejects throws. */
  function NamesOf(midiNotes: seq<int>): (r: Result<seq<string>, TheoryError>)
    ensures r.Ok? ==> |r.value| == |midiNotes|
  {
    AllOk(seq(|midiNotes|, i requires 0 <= i < |midiNotes| => PitchClassName(midiNotes[i])))
  }

  /** The names are there exactly when every number is a MIDI number, and
      each is the pitch-class name of its number. */
  lemma NamesOfContract(midiNotes: seq<int>)
    ensures NamesOf(midiNotes).Ok? <==> forall i :: 0 <= i < |midiNotes| ==> 0 <= midiNotes[i] <= 127
    ensures NamesOf(midiNotes).Ok? ==>
              forall i :: 0 <= i < |midiNotes| ==> NamesOf(midiNotes).value[i] == PitchClassName(midiNotes[i]).value
  {
    var rs := seq(|midiNotes|, i requires 0 <= i < |midiNotes| => PitchClassName(midiNotes[i]));
    assert NamesOf(midiNotes) == AllOk(rs);
    forall i | 0 <= i < |midiNotes|
      ensures rs[i].Ok? <==> 0 <= midiNotes[i] <= 127
    {
      PitchClassNameSpelling(midiNotes[i]);
    }
  }

  /** One name of a list of names. */
  lemma NamesOfAt(midiNotes: seq<int>, noteNames: seq<string>, i: int)
    requires NamesOf(midiNotes) == Ok(noteNames) && 0 <= i < |midiNotes|
    ensures 0 <= midiNotes[i] <= 127 && i < |noteNames| && PitchClassName(midiNotes[i]) == Ok(noteNames[i])
  {
    NamesOfContract(midiNotes);
    PitchClassNameSpelling(midiNotes[i]);
  }

  // ---------------------------------------------------------------------
  // The scale and chord handlers

  datatype NotesResponse = NotesResponse(root: string, noteType: string, octave: int, notes: seq<string>, midiNotes: seq<int>)

  /** The body both handlers build from the MIDI numbers the core returns. */
  function NotesResponseOf(root: string, noteType: string, octave: int, generated: Result<seq<int>, TheoryError>)
    : Result<NotesResponse, TheoryError>
  {
    match generated
    case Err(e) => Err(e)
    case Ok(midiNotes) =>
      match NamesOf(midiNotes)
      case Err(e) => Err(e)
      case Ok(notes) => Ok(NotesResponse(root, noteType, octave, notes, midiNotes))
  }

  /** GET /scales/:root/:type. */
  function ScaleRoute(root: string, scaleType: string, octave: int): Result<NotesResponse, TheoryError> {
    NotesResponseOf(root, scaleType, octave, GenerateScale(root, scaleType, octave))
  }

  /** GET /chords/:root/:type. */
  function ChordRoute(root: string, chordType: string, octave: int): Result<NotesResponse, TheoryError> {
    NotesResponseOf(root, chordType, octave, GenerateChord(root, chordType, octave))
  }

  /** Numbers the core generated (all MIDI numbers) are always named: the
      body fails exactly when the core throws, with its error, and
      otherwise carries the core's numbers with one name for each. */
  lemma NotesResponseOfVoicing(root: string, noteType: string, octave: int, rootNote: int, intervals: seq<int>,
                               generated: Result<seq<int>, TheoryError>)
    requires generated.Ok? ==> Voicing(rootNote, intervals, generated.value)
    ensures NotesResponseOf(root, noteType, octave, generated).Err? <==> generated.Err?
    ensures generated.Err? ==> NotesResponseOf(root, noteType, octave, generated).error == generated.error
    ensures generated.Ok? ==>
              var r := NotesResponseOf(root, noteType, octave, generated).value;
              r.midiNotes == generated.value && |r.notes| == |r.midiNotes| &&
              r.root == root && r.noteType == noteType && r.octave == octave
  {
    if generated.Ok? {
      NamesOfContract(generated.value);
    }
  }

  /** The scale handler answers with the core's scale, named note by note,
      and fails with the core's error. */
  lemma ScaleRouteContract(root: string, scaleType: string, octave: int)
    ensures ScaleRoute(root, scaleType, octave).Err? <==> GenerateScale(root, scaleType, octave).Err?
    ensures ScaleRoute(root, scaleType, octave).Err? ==>
              ScaleRoute(root, scaleType, octave).error == GenerateScale(root, scaleType, octave).error
    ensures ScaleRoute(root, scaleType, octave).Ok? ==>
              ScaleRoute(root, scaleType, octave).value.midiNotes == GenerateScale(root, scaleType, octave).value &&
              |ScaleRoute(root, scaleType, octave).value.notes| == |GenerateScale(root, scaleType, octave).value|
  {
    GenerateScaleContract(root, scaleType, octave);
    var rootNote := if RootMidi(root, octave).Ok? then RootMidi(root, octave).value else 0;
    var intervals := if ScaleIntervals(scaleType).Some? then ScaleIntervals(scaleType).value else [];
    NotesResponseOfVoicing(root, scaleType, octave, rootNote, intervals, GenerateScale(root, scaleType, octave));
  }

  /** The same for the chord handler. */
  lemma ChordRouteContract(root: string, chordType: string, octave: int)
    ensures ChordRoute(root, chordType, octave).Err? <==> GenerateChord(root, chordType, octave).Err?
    ensures ChordRoute(root, chordType, octave).Err? ==>
              ChordRoute(root, chordType, octave).error == GenerateChord(root, chordType, octave).error
    ensures ChordRoute(root, chordType, octave).Ok? ==>
              ChordRoute(root, chordType, octave).value.midiNotes == GenerateChord(root, chordType, octave).value &&
              |ChordRoute(root, chordType, octave).value.notes| == |GenerateChord(root, chordType, octave).value|
  {
    GenerateChordContract(root, chordType, octave);
    var rootNote := if RootMidi(root, octave).Ok? then RootMidi(root, octave).value else 0;
    var intervals := if ChordIntervals(chordType).Some? then ChordIntervals(chordType).value else [];
    NotesResponseOfVoicing(root, chordType, octave, rootNote, intervals, GenerateChord(root, chordType, octave));
  }

  /** Index for index, a name in a body is the pitch-class name of the MIDI
      number beside it. */
  lemma ResponseNoteAt(r: NotesResponse, generated: Result<seq<int>, TheoryError>, i: int)
    requires NotesResponseOf(r.root, r.noteType, r.octave, generated) == Ok(r)
    requires 0 <= i < |r.midiNotes|
    ensures 0 <= r.midiNotes[i] <= 127 && i < |r.notes|
    ensures r.midiNotes[i] >= 12 ==> r.notes[i] == NOTE_NAMES[r.midiNotes[i] % 12]
    ensures r.midiNotes[i] < 12 ==> r.notes[i] == NOTE_NAMES[r.midiNotes[i] % 12] + "-"
  {
    NamesOfContract(r.midiNotes);
    PitchClassNameSpelling(r.midiNotes[i]);
  }

  // ---------------------------------------------------------------------
  // The progression handler

  datatype ProgressionChord = ProgressionChord(numeral: string, notes: seq<string>, midiNotes: seq<int>)

  datatype ProgressionResponse =
    ProgressionResponse(key: string, mode: string, numerals: string, octave: int, chords: seq<ProgressionChord>)

  /** `req.query.numerals || 'I-IV-V-I'`, split on '-'. */
  function NumeralArray(numerals: Option<string>): (r: seq<string>)
    ensures |r| > 0
  {
    Split(StringOr(numerals, "I-IV-V-I"), '-')
  }

  /** `chordArrays.map((chordMidiNotes, index) => ...)`: each chord tagged
      with the numeral at its index and named note by note. */
  function FormatChords(numeralArray: seq<string>, chordArrays: seq<seq<int>>): (r: Result<seq<ProgressionChord>, TheoryError>)
    requires |chordArrays| == |numeralArray|
  {
    AllOk(seq(|chordArrays|, i requires 0 <= i < |chordArrays| =>
      match NamesOf(chordArrays[i])
      case Err(e) => Err(e)
      case Ok(notes) => Ok(ProgressionChord(numeralArray[i], notes, chordArrays[i]))))
  }

  function ProgressionBody(key: string, mode: string, numerals: Option<string>, octave: int,
                           chords: Result<seq<ProgressionChord>, TheoryError>): Result<ProgressionResponse, TheoryError>
  {
    match chords
    case Err(e) => Err(e)
    case Ok(cs) => Ok(ProgressionResponse(key, mode, StringOr(numerals, "I-IV-V-I"), octave, cs))
  }

  /** GET /progressions/:key/:mode. */
  method ProgressionRoute(key: string, mode: string, numerals: Option<string>, octave: int)
    returns (r: Result<ProgressionResponse, TheoryError>)
    ensures FullScale(key, mode, octave).Err? ==> r == Err(FullScale(key, mode, octave).error)
    ensures FullScale(key, mode, octave).Ok? ==>
              |FullScale(key, mode, octave).value| >= 7 &&
              var chords := ProgressionChords(NumeralArray(numerals), FullScale(key, mode, octave).value, mode);
              (chords.Err? ==> r == Err(chords.error)) &&
              (chords.Ok? ==>
                 |chords.value| == |NumeralArray(numerals)| &&
                 r == ProgressionBody(key, mode, numerals, octave, FormatChords(NumeralArray(numerals), chords.value)))
  {
    var numeralString := StringOr(numerals, "I-IV-V-I");
    var numeralArray := Split(numeralString, '-');
    var chordArrays := GenerateChordProgression(numeralArray, key, mode, octave);
    if chordArrays.Err? {
      return Err(chordArrays.error);
    }
    var fullScale := FullScale(key, mode, octave).value;
    assert |chordArrays.value| == |numeralArray| by {
      assert AllOk(NumeralChords(numeralArray, fullScale, mode)) == chordArrays;
    }
    var chords := FormatChords(numeralArray, chordArrays.value);
    if chords.Err? {
      return Err(chords.error);
    }
    r := Ok(ProgressionResponse(key, mode, numeralString, octave, chords.value));
  }

  /** Every chord of a progression is made of MIDI numbers, so the handler
      names them all: one entry per numeral, tagged with that numeral and
      holding the core's chord. */
  lemma FormatChordsContract(numeralArray: seq<string>, fullScale: seq<Option<int>>, mode: string, chordArrays: seq<seq<int>>)
    requires |fullScale| >= 7 && ProgressionChords(numeralArray, fullScale, mode) == Ok(chordArrays)
    ensures |chordArrays| == |numeralArray| && FormatChords(numeralArray, chordArrays).Ok?
    ensures var cs := FormatChords(numeralArray, chordArrays).value;
      |cs| == |numeralArray| &&
      forall i :: 0 <= i < |cs| ==> cs[i].numeral == numeralArray[i] && cs[i].midiNotes == chordArrays[i] &&
                                    cs[i].notes == NamesOf(chordArrays[i]).value
  {
    var rs := NumeralChords(numeralArray, fullScale, mode);
    forall i | 0 <= i < |chordArrays| ensures NamesOf(chordArrays[i]).Ok? {
      assert rs[i] == Ok(chordArrays[i]);
      NumeralChordInRange(numeralArray[i], fullScale, mode, chordArrays[i]);
      NamesOfContract(chordArrays[i]);
    }
  }

  /** A chord of a numeral is made of MIDI numbers. */
  lemma NumeralChordInRange(numeral: string, fullScale: seq<Option<int>>, mode: string, chord: seq<int>)
    requires |fullScale| >= 7 && NumeralChord(numeral, fullScale, mode) == Ok(chord)
    ensures forall j :: 0 <= j < |chord| ==> 0 <= chord[j] <= 127
  {
    var degree := RomanNumeral(numeral).value;
    DegreeChordInRange(fullScale[degree], ChordQuality(mode, degree, numeral), chord);
  }

  lemma DegreeChordInRange(slot: Option<int>, chordType: string, chord: seq<int>)
    requires DegreeChord(slot, chordType) == Ok(chord)
    ensures forall j :: 0 <= j < |chord| ==> 0 <= chord[j] <= 127
  {
    var rootNote := slot.value;
    var name := MidiToNote(rootNote).value;
    var root := RemoveFirstDigit(name);
    var octave := rootNote / 12 - 1;
    assert GenerateChord(root, chordType, octave) == Ok(chord);
    GenerateChordContract(root, chordType, octave);
  }

  // ---------------------------------------------------------------------
  // The key-signature handler

  /** GET /key-signature/:key/:mode: the core reads "<key> <mode>". */
  function KeySignatureRoute(key: string, mode: string): Result<KeySignature, TheoryError> {
    GetKeySignature(key + " " + mode)
  }

  /** Outside the fixed table, the handler's mode is the core's mode: the
      call fails exactly for a mode other than major and minor, or a minor
      key whose root is not a note. */
  lemma KeySignatureRouteMode(key: string, mode: string)
    requires ' ' !in key && ' ' !in mode && FixedKeySignature(key + " " + mode).None?
    ensures KeySignatureRoute(key, mode).Err? <==>
              (mode != "major" && mode != "minor") || (mode == "minor" && NoteIndex(NormalizeNoteName(key)) < 0)
  {
    CoreMusicTheory.SplitAfterRoot(key, mode);
  }

  // ---------------------------------------------------------------------
  // analyze-chord

  /** The chord type the handler reports. */
  datatype ChordKind = Major | Minor | Diminished | Augmented | Major7 | Dominant7 | Minor7 | Unknown {
    function Name(): string {
      match this
      case Major => "major"
      case Minor => "minor"
      case Diminished => "diminished"
      case Augmented => "augmented"
      case Major7 => "major7"
      case Dominant7 => "dominant7"
      case Minor7 => "minor7"
      case Unknown => "unknown"
    }

    /** The intervals above the lowest note that the handler tests for. */
    function Shape(): seq<int> {
      match this
      case Major => [4, 7]
      case Minor => [3, 7]
      case Diminished => [3, 6]
      case Augmented => [4, 8]
      case Major7 => [4, 7, 11]
      case Dominant7 => [4, 7, 10]
      case Minor7 => [3, 7, 10]
      case Unknown => []
    }
  }

  /** The chain of interval tests. */
  function Classify(intervals: seq<int>): ChordKind {
    if |intervals| == 2 && intervals[0] == 4 && intervals[1] == 7 then Major
    else if |intervals| == 2 && intervals[0] == 3 && intervals[1] == 7 then Minor
    else if |intervals| == 2 && intervals[0] == 3 && intervals[1] == 6 then Diminished
    else if |intervals| == 2 && intervals[0] == 4 && intervals[1] == 8 then Augmented
    else if |intervals| == 3 && intervals[0] == 4 && intervals[1] == 7 && intervals[2] == 11 then Major7
    else if |intervals| == 3 && intervals[0] == 4 && intervals[1] == 7 && intervals[2] == 10 then Dominant7
    else if |intervals| == 3 && intervals[0] == 3 && intervals[1] == 7 && intervals[2] == 10 then Minor7
    else Unknown
  }

  /** A chord is classified as a known type exactly when its intervals are
      that type's shape, and as unknown when they are no type's shape. */
  lemma ClassifyByShape(intervals: seq<int>, kind: ChordKind)
    ensures kind != Unknown ==> (Classify(intervals) == kind <==> intervals == kind.Shape())
    ensures Classify(intervals) == Unknown <==>
              forall k: ChordKind :: k != Unknown ==> intervals != k.Shape()
  {
    if Classify(intervals) != Unknown {
      assert intervals == Classify(intervals).Shape();
    }
  }

  /** Each known type is the core's chord of the same name: 0 and then the
      intervals the handler tests for. */
  lemma KindsAreCoreChords(kind: ChordKind)
    requires kind != Unknown
    ensures ChordIntervals(kind.Name()) == Some([0] + kind.Shape())
  {
    match kind
    case Major => assert [0] + [4, 7] == [0, 4, 7];
    case Minor => assert [0] + [3, 7] == [0, 3, 7];
    case Diminished => assert [0] + [3, 6] == [0, 3, 6];
    case Augmented => assert [0] + [4, 8] == [0, 4, 8];
    case Major7 => assert [0] + [4, 7, 11] == [0, 4, 7, 11];
    case Dominant7 => assert [0] + [4, 7, 10] == [0, 4, 7, 10];
    case Minor7 => assert [0] + [3, 7, 10] == [0, 3, 7, 10];
  }

  /** `midiNotes` as the request body gives it: an array or anything else. */
  datatype ChordInput = NotAnArray | Notes(values: seq<int>)

  datatype AnalyzeError =
    | TooFewNotes           // "At least 3 notes required to analyze a chord"
    | NoteError(error: TheoryError)

  datatype Analysis = Analysis(root: string, kind: ChordKind, inversion: int, notes: seq<string>, midiNotes: seq<int>)

  /** The intervals of the sorted notes above the lowest one. */
  function Intervals(sorted: seq<int>): (r: seq<int>)
    requires |sorted| > 0
    ensures |r| == |sorted| - 1
  {
    seq(|sorted| - 1, i requires 0 <= i < |sorted| - 1 => sorted[i + 1] - sorted[0])
  }

  /** `s.replace(/[0-9]/g, '')`. */
  function RemoveDigits(s: string): (r: string)
    ensures !ContainsDigit(r)
  {
    if |s| == 0 then []
    else (if IsDigit(s[0]) then [] else [s[0]]) + RemoveDigits(s[1..])
  }

  lemma {:induction false} RemoveDigitsOfPlain(s: string)
    requires !ContainsDigit(s)
    ensures RemoveDigits(s) == s
  {
    if |s| > 0 {
      RemoveDigitsOfPlain(s[1..]);
      assert [s[0]] + s[1..] == s;
    }
  }

  /** The inversion tests: root and inversion as the handler leaves them. */
  function Inverted(kind: ChordKind, noteNames: seq<string>): (string, int)
    requires |noteNames| >= 3
  {
    if kind != Unknown && kind == Major && noteNames[0] == RemoveDigits(noteNames[1]) then (noteNames[2], 1)
    else if kind != Unknown && kind == Major && noteNames[0] == RemoveDigits(noteNames[2]) then (noteNames[1], 2)
    else (noteNames[0], 0)
  }

  /** POST /analyze-chord, as a value. */
  function Analyze(input: ChordInput): Result<Analysis, AnalyzeError> {
    match input
    case NotAnArray => Err(TooFewNotes)
    case Notes(values) =>
      if |values| < 3 then Err(TooFewNotes)
      else
        var sorted := SortAsc(values);
        match NamesOf(sorted)
        case Err(e) => Err(NoteError(e))
        case Ok(noteNames) =>
          var kind := Classify(Intervals(sorted));
          var rootAndInversion := Inverted(kind, noteNames);
          Ok(Analysis(rootAndInversion.0, kind, rootAndInversion.1, noteNames, sorted))
  }

  /** The interval loop of analyze-chord. */
  method IntervalsAboveLowest(sorted: seq<int>) returns (intervals: seq<int>)
    requires |sorted| > 0
    ensures intervals == Intervals(sorted)
  {
    intervals := [];
    var i := 1;
    while i < |sorted|
      invariant 1 <= i <= |sorted| && |intervals| == i - 1
      invariant forall k :: 0 <= k < i - 1 ==> intervals[k] == sorted[k + 1] - sorted[0]
    {
      intervals := intervals + [sorted[i] - sorted[0]];
      i := i + 1;
    }
  }

  /** POST /analyze-chord. */
  method AnalyzeChord(input: ChordInput) returns (r: Result<Analysis, AnalyzeError>)
    ensures r == Analyze(input)
  {
    if input.NotAnArray? || |input.values| < 3 {
      return Err(TooFewNotes);
    }
    var sortedNotes := SortAsc(input.values);
    var names := NamesOf(sortedNotes);
    if names.Err? {
      return Err(NoteError(names.error));
    }
    var noteNames := names.value;
    var root := noteNames[0];
    var inversion := 0;
    var intervals := IntervalsAboveLowest(sortedNotes);
    var kind := Classify(intervals);
    if kind != Unknown {
      if kind == Major && noteNames[0] == RemoveDigits(noteNames[1]) {
        root := noteNames[2];
        inversion := 1;
      } else if kind == Major && noteNames[0] == RemoveDigits(noteNames[2]) {
        root := noteNames[1];
        inversion := 2;
      }
    }
    r := Ok(Analysis(root, kind, inversion, noteNames, sortedNotes));
  }

  /** The request is refused exactly when it is not an array of at least
      three notes; an array of them fails only when a note is not a MIDI
      number. */
  lemma AnalyzeErrors(input: ChordInput)
    ensures Analyze(input) == Err(TooFewNotes) <==> input.NotAnArray? || |input.values| < 3
    ensures input.Notes? && |input.values| >= 3 ==>
              (Analyze(input).Err? <==> exists i :: 0 <= i < |input.values| && !(0 <= input.values[i] <= 127))
  {
    if input.Notes? && |input.values| >= 3 {
      var sorted := SortAsc(input.values);
      NamesOfContract(sorted);
      if NamesOf(sorted).Err? {
        var j :| 0 <= j < |sorted| && !(0 <= sorted[j] <= 127);
        assert sorted[j] in multiset(input.values);
      } else {
        forall i | 0 <= i < |input.values| ensures 0 <= input.values[i] <= 127 {
          assert input.values[i] in multiset(sorted);
        }
      }
    }
  }

  /** The answer carries the notes sorted ascending (a permutation of the
      request), their names, and the type their intervals above the lowest
      note make. */
  lemma AnalyzeSortsNotes(input: ChordInput)
    requires Analyze(input).Ok?
    ensures var a := Analyze(input).value;
      Ascending(a.midiNotes) && multiset(a.midiNotes) == multiset(input.values) &&
      |a.midiNotes| == |input.values| >= 3 && a.notes == NamesOf(a.midiNotes).value &&
      a.kind == Classify(Intervals(a.midiNotes))
  {
  }

  /** A known type means the notes are the core's chord of that name built
      on the lowest note. */
  lemma AnalyzeKnownKind(input: ChordInput)
    requires Analyze(input).Ok? && Analyze(input).value.kind != Unknown
    ensures var a := Analyze(input).value;
      ChordIntervals(a.kind.Name()).Some? &&
      a.midiNotes == Offset(a.midiNotes[0], ChordIntervals(a.kind.Name()).value)
  {
    var a := Analyze(input).value;
    KindsAreCoreChords(a.kind);
    ShapedNotes(a.midiNotes, a.kind);
  }

  lemma ShapedNotes(sorted: seq<int>, kind: ChordKind)
    requires |sorted| > 0 && kind != Unknown && Classify(Intervals(sorted)) == kind
    ensures sorted == Offset(sorted[0], [0] + kind.Shape())
  {
    var shape := kind.Shape();
    ClassifyByShape(Intervals(sorted), kind);
    var chord := Offset(sorted[0], [0] + shape);
    assert |chord| == |sorted|;
    forall i | 0 <= i < |chord| ensures chord[i] == sorted[i] {
      if i > 0 {
        assert chord[i] == sorted[0] + shape[i - 1];
        assert Intervals(sorted)[i - 1] == sorted[i] - sorted[0];
      }
    }
  }

  /** The inversion tests compare the names of notes four and seven
      semitones apart, which always differ: the handler never reports an
      inversion, and the root is always the name of the lowest note. */
  lemma AnalyzeNeverInverts(input: ChordInput)
    requires Analyze(input).Ok?
    ensures Analyze(input).value.inversion == 0
    ensures Analyze(input).value.root == Analyze(input).value.notes[0] == PitchClassName(Analyze(input).value.midiNotes[0]).value
  {
    var a := Analyze(input).value;
    NamesOfContract(a.midiNotes);
    if a.kind == Major {
      ClassifyByShape(Intervals(a.midiNotes), Major);
      MajorTriadNamesDiffer(a.midiNotes, a.notes);
    }
  }

  /** A note 1 to 11 semitones up is of another pitch class. */
  lemma OtherPitchClass(a: int, d: int)
    requires 0 < d < 12
    ensures (a + d) % 12 != a % 12
  {
    var q, r := a / 12, a % 12;
    if r + d < 12 {
      RemainderUnique(a + d, 12, q, r + d);
    } else {
      RemainderUnique(a + d, 12, q + 1, r + d - 12);
    }
  }

  lemma MajorTriadNamesDiffer(sorted: seq<int>, noteNames: seq<string>)
    requires |sorted| == 3 && Intervals(sorted) == [4, 7] && NamesOf(sorted) == Ok(noteNames)
    ensures noteNames[0] != RemoveDigits(noteNames[1]) && noteNames[0] != RemoveDigits(noteNames[2])
  {
    var iv := Intervals(sorted);
    assert iv[0] == sorted[1] - sorted[0] && iv[1] == sorted[2] - sorted[0];
    NoteAboveLowestNamedApart(sorted, noteNames, 1, 4);
    NoteAboveLowestNamedApart(sorted, noteNames, 2, 7);
  }

  /** A note 1 to 11 semitones above the lowest does not carry its name,
      with or without digits removed. */
  lemma NoteAboveLowestNamedApart(sorted: seq<int>, noteNames: seq<string>, j: int, d: int)
    requires 0 < j < |sorted| && 0 < d < 12 && sorted[j] == sorted[0] + d && NamesOf(sorted) == Ok(noteNames)
    ensures noteNames[0] != RemoveDigits(noteNames[j])
  {
    NamesOfAt(sorted, noteNames, 0);
    NamesOfAt(sorted, noteNames, j);
    OtherPitchClass(sorted[0], d);
    PitchClassNameHasNoDigit(sorted[j]);
    RemoveDigitsOfPlain(noteNames[j]);
    PitchClassNamesDiffer(sorted[0], sorted[j]);
  }

  // ---------------------------------------------------------------------
  // Inversions as the handler's comments describe them

  /** Sorted notes that all have names analyze to those names, the type
      of their intervals and the handler's inversion tests. */
  lemma AnalyzeOfSorted(s: seq<int>, noteNames: seq<string>)
    requires |s| >= 3 && Ascending(s) && NamesOf(s) == Ok(noteNames)
    ensures |noteNames| >= 3
    ensures Analyze(Notes(s)) ==
              Ok(Analysis(Inverted(Classify(Intervals(s)), noteNames).0, Classify(Intervals(s)),
                          Inverted(Classify(Intervals(s)), noteNames).1, noteNames, s))
  {
    SortAscSorted(s);
  }

  /** Three sorted notes from 12 up to 127 are named by their pitch
      classes alone. */
  lemma TriadNames(s: seq<int>)
    requires |s| == 3 && s[0] <= s[1] <= s[2] && 12 <= s[0] && s[2] <= 127
    ensures NamesOf(s) == Ok(TriadNamesOf(s))
  {
    assert forall i :: 0 <= i < |s| ==> 12 <= s[i] <= 127;
    NamesOfContract(s);
    var n := NamesOf(s).value;
    assert NamesOf(s) == Ok(n);
    NameOfNoteAt(s, n, 0);
    NameOfNoteAt(s, n, 1);
    NameOfNoteAt(s, n, 2);
    assert n == TriadNamesOf(s);
  }

  lemma NameOfNoteAt(s: seq<int>, noteNames: seq<string>, i: int)
    requires NamesOf(s) == Ok(noteNames) && 0 <= i < |s| && 12 <= s[i]
    ensures i < |noteNames| && noteNames[i] == NOTE_NAMES[s[i] % 12]
  {
    NamesOfAt(s, noteNames, i);
    PitchClassNameSpelling(s[i]);
  }

  lemma ThreeAscending(s: seq<int>)
    requires |s| == 3 && s[0] <= s[1] <= s[2]
    ensures Ascending(s)
  {
  }

  lemma IntervalsOfThree(s: seq<int>)
    requires |s| == 3
    ensures Intervals(s) == [s[1] - s[0], s[2] - s[0]]
  {
    var iv := Intervals(s);
    assert iv[0] == s[1] - s[0] && iv[1] == s[2] - s[0];
  }

  /** Names of three sorted notes from 12 up to 127. */
  function TriadNamesOf(s: seq<int>): seq<string>
    requires |s| == 3 && 0 <= s[0] && 0 <= s[1] && 0 <= s[2]
  {
    [NOTE_NAMES[s[0] % 12], NOTE_NAMES[s[1] % 12], NOTE_NAMES[s[2] % 12]]
  }

  /** Three sorted notes from 12 up to 127 with `first` and `second`
      semitones above the lowest: their analysis as written and as
      intended, when that shape is no known chord type. */
  lemma ShapeAnalysis(s: seq<int>, first: int, second: int)
    requires |s| == 3 && 12 <= s[0] && s[1] == s[0] + first && s[2] == s[0] + second && 0 < first < second && s[2] <= 127
    requires Classify([first, second]) == Unknown
    ensures Analyze(Notes(s)) == Ok(Analysis(NOTE_NAMES[s[0] % 12], Unknown, 0, TriadNamesOf(s), s))
    ensures AnalyzeIntended(Notes(s)) ==
              Ok(var t := InvertedIntended(Unknown, [first, second], TriadNamesOf(s));
                 Analysis(t.1, t.0, t.2, TriadNamesOf(s), s))
  {
    IntervalsOfThree(s);
    ThreeAscending(s);
    TriadNames(s);
    AnalyzeOfSorted(s, TriadNamesOf(s));
  }

  /** The handler as written does not recognize an inverted major triad:
      E-G-C (64, 67, 72), the first inversion of C major, is an unknown
      chord on E with inversion 0, and G-C-E likewise on G. */
  lemma InvertedTriadsUnrecognized(r: int)
    requires 12 <= r && r + 16 <= 127
    ensures Analyze(Notes([r + 4, r + 7, r + 12])) ==
              Ok(Analysis(NOTE_NAMES[(r + 4) % 12], Unknown, 0, TriadNamesOf([r + 4, r + 7, r + 12]), [r + 4, r + 7, r + 12]))
    ensures Analyze(Notes([r + 7, r + 12, r + 16])) ==
              Ok(Analysis(NOTE_NAMES[(r + 7) % 12], Unknown, 0, TriadNamesOf([r + 7, r + 12, r + 16]), [r + 7, r + 12, r + 16]))
  {
    ShapeAnalysis([r + 4, r + 7, r + 12], 3, 8);
    ShapeAnalysis([r + 7, r + 12, r + 16], 5, 9);
  }

  /** What the inversion tests evidently mean: a major triad with its third
      in the bass (3 and 8 semitones above the lowest note) is the first
      inversion, rooted on its top note; with its fifth in the bass (5 and
      9) it is the second inversion, rooted on its middle note. */
  function InvertedIntended(kind: ChordKind, intervals: seq<int>, noteNames: seq<string>): (ChordKind, string, int)
    requires |noteNames| >= 3
  {
    if intervals == [3, 8] then (Major, noteNames[2], 1)
    else if intervals == [5, 9] then (Major, noteNames[1], 2)
    else (kind, noteNames[0], 0)
  }

  /** POST /analyze-chord with the inversion tests as intended. */
  function AnalyzeIntended(input: ChordInput): Result<Analysis, AnalyzeError> {
    match Analyze(input)
    case Err(e) => Err(e)
    case Ok(a) =>
      AnalyzeSortsNotes(input);
      var t := InvertedIntended(a.kind, Intervals(a.midiNotes), a.notes);
      Ok(Analysis(t.1, t.0, t.2, a.notes, a.midiNotes))
  }

  /** Both inversions of the major triad on `r`: the intended analysis
      names them major on r's pitch class, with the inversion given by the
      chord tone in the bass (E-G-C is C major, inversion 1). */
  lemma IntendedNamesInversions(r: int)
    requires 12 <= r && r + 16 <= 127
    ensures AnalyzeIntended(Notes([r + 4, r + 7, r + 12])) ==
              Ok(Analysis(NOTE_NAMES[r % 12], Major, 1, TriadNamesOf([r + 4, r + 7, r + 12]), [r + 4, r + 7, r + 12]))
    ensures AnalyzeIntended(Notes([r + 7, r + 12, r + 16])) ==
              Ok(Analysis(NOTE_NAMES[r % 12], Major, 2, TriadNamesOf([r + 7, r + 12, r + 16]), [r + 7, r + 12, r + 16]))
  {
    assert (r + 12) % 12 == r % 12;
    ShapeAnalysis([r + 4, r + 7, r + 12], 3, 8);
    ShapeAnalysis([r + 7, r + 12, r + 16], 5, 9);
  }

  /** The intended analysis fails exactly where the handler does and
      differs from it only on the two inverted major shapes. */
  lemma AnalyzeIntendedExtends(input: ChordInput)
    ensures AnalyzeIntended(input).Err? <==> Analyze(input).Err?
    ensures Analyze(input).Err? ==> AnalyzeIntended(input) == Analyze(input)
    ensures (Analyze(input).Ok? && Intervals(Analyze(input).value.midiNotes) != [3, 8] &&
             Intervals(Analyze(input).value.midiNotes) != [5, 9]) ==> AnalyzeIntended(input) == Analyze(input)
  {
    if Analyze(input).Ok? {
      AnalyzeSortsNotes(input);
      AnalyzeNeverInverts(input);
    }
  }
}
