// midi-framework.js, `MusicTheory` (lines 8-131): note numbers, scales,
// chords and scale-degree progressions. `getNoteNumber` counts octaves from
// C0 = 0 (so "C", 4 is 48), while `getNoteName` reads 60 as "C4".
module RootTheory {
  import opened JsSupport
  import opened NoteNames

  datatype TheoryError =
    | UnknownScaleType(scaleType: string)
    | UnknownRootNote(rootNote: string)
    | UnknownChordType(chordType: string)
    | UnknownProgression(progressionName: string)

  /** getNoteNumber: `NOTE_NAMES.indexOf(noteName) + octave * 12`, or null;
      an omitted (undefined) octave is 4. */
  function GetNoteNumber(noteName: string, octave: Option<int>): Option<int> {
    var k := NoteIndex(noteName);
    if k == -1 then None else Some(k + octave.GetOr(4) * 12)
  }

  /** getNoteNumber finds exactly the names of NOTE_NAMES, at their index,
      in octave 4 unless another is given. */
  lemma GetNoteNumberContract(noteName: string, octave: Option<int>)
    ensures GetNoteNumber(noteName, octave).None? <==> noteName !in NOTE_NAMES
    ensures forall k :: 0 <= k < 12 ==> GetNoteNumber(NOTE_NAMES[k], octave) == Some(k + 12 * octave.GetOr(4))
    ensures octave.None? ==> GetNoteNumber(noteName, octave) == GetNoteNumber(noteName, Some(4))
  {
    NoteIndexIsIndexOf(noteName);
  }

  /** `NOTE_NAMES[i]` as a template-literal operand: outside the table the
      element is `undefined`. */
  function NameAt(i: int): string {
    if 0 <= i < 12 then NOTE_NAMES[i] else "undefined"
  }

  /** getNoteName: `${NOTE_NAMES[m % 12]}${Math.floor(m / 12) - 1}`. Dafny's
      `/` by 12 is already the floor. */
  function GetNoteName(midiNumber: int): string {
    NameAt(JsRem(midiNumber, 12)) + IntToString(midiNumber / 12 - 1)
  }

  lemma DivModPitchClass(k: int, octave: int)
    requires 0 <= k < 12
    ensures (k + 12 * octave) / 12 == octave && (k + 12 * octave) % 12 == k
  {
  }

  /** A non-negative number is named by its pitch class and its octave
      counted from C-1. */
  lemma GetNoteNameOfPitchClass(k: int, octave: int)
    requires 0 <= k < 12 && octave >= -1
    ensures GetNoteName(k + 12 * (octave + 1)) == NameAt(k) + IntToString(octave)
  {
    DivModPitchClass(k, octave + 1);
    assert JsRem(k + 12 * (octave + 1), 12) == k;
  }

  /** The two conventions disagree by one octave: the number getNoteNumber
      gives a name in octave `o` is read back as that name in octave `o - 1`. */
  lemma NameOfNoteNumber(noteName: string, octave: int)
    requires NoteIndex(noteName) >= 0 && octave >= 0
    ensures GetNoteNumber(noteName, Some(octave)) == Some(NoteIndex(noteName) + 12 * octave)
    ensures GetNoteName(NoteIndex(noteName) + 12 * octave) == noteName + IntToString(octave - 1)
  {
    var k := NoteIndex(noteName);
    NameAtIndex(noteName);
    GetNoteNameOfPitchClass(k, octave - 1);
    assert k + 12 * ((octave - 1) + 1) == k + 12 * octave;
  }

  /** SCALES. */
  function ScaleIntervals(scaleType: string): Option<seq<int>> {
    match scaleType
    case "major" => Some([0, 2, 4, 5, 7, 9, 11])
    case "minor" => Some([0, 2, 3, 5, 7, 8, 10])
    case "pentatonicMajor" => Some([0, 2, 4, 7, 9])
    case "pentatonicMinor" => Some([0, 3, 5, 7, 10])
    case "blues" => Some([0, 3, 5, 6, 7, 10])
    case "chromatic" => Some([0, 1, 2, 3, 4, 5, 6, 7, 8, 9, 10, 11])
    case _ => None
  }

  /** CHORDS. */
  function ChordIntervals(chordType: string): Option<seq<int>> {
    match chordType
    case "major" => Some([0, 4, 7])
    case "minor" => Some([0, 3, 7])
    case "diminished" => Some([0, 3, 6])
    case "augmented" => Some([0, 4, 8])
    case "sus2" => Some([0, 2, 7])
    case "sus4" => Some([0, 5, 7])
    case "dominant7" => Some([0, 4, 7, 10])
    case "major7" => Some([0, 4, 7, 11])
    case "minor7" => Some([0, 3, 7, 10])
    case "diminished7" => Some([0, 3, 6, 9])
    case "halfDiminished7" => Some([0, 3, 6, 10])
    case "augmented7" => Some([0, 4, 8, 10])
    case "minorMajor7" => Some([0, 3, 7, 11])
    case _ => None
  }

  predicate WithinOctave(iv: seq<int>) {
    |iv| > 0 && iv[0] == 0 && StepsUp(iv) && iv[|iv| - 1] < 12
  }

  /** Every table starts at the root, climbs strictly and stays within the
      octave. */
  lemma ScaleTableAscends(scaleType: string)
    ensures ScaleIntervals(scaleType).Some? ==>
              var iv := ScaleIntervals(scaleType).value;
              |iv| >= 5 && WithinOctave(iv) && StrictlyAscending(iv)
  {
    if ScaleIntervals(scaleType).Some? {
      StepsAscend(ScaleIntervals(scaleType).value);
    }
  }

  lemma ChordTableAscends(chordType: string)
    ensures ChordIntervals(chordType).Some? ==>
              var iv := ChordIntervals(chordType).value;
              |iv| >= 3 && WithinOctave(iv) && StrictlyAscending(iv)
  {
    if ChordIntervals(chordType).Some? {
      StepsAscend(ChordIntervals(chordType).value);
    }
  }

  /** The shape shared by generateScale and generateChord: look the type up
      first, then the root, then add the root to each interval. */
  function Build(table: Option<seq<int>>, typeError: TheoryError, rootNote: string, rootOctave: Option<int>): Result<seq<int>, TheoryError> {
    match table
    case None => Err(typeError)
    case Some(intervals) =>
      match GetNoteNumber(rootNote, rootOctave)
      case None => Err(UnknownRootNote(rootNote))
      case Some(root) => Ok(Offset(root, intervals))
  }

  /** generateScale; the scale type is 'major' when omitted, and an omitted
      octave reaches getNoteNumber, which reads it as 4. */
  function GenerateScale(rootNote: string, rootOctave: Option<int>, scaleType: Option<string>): Result<seq<int>, TheoryError> {
    var t := scaleType.GetOr("major");
    Build(ScaleIntervals(t), UnknownScaleType(t), rootNote, rootOctave)
  }

  /** generateChord, with the same defaults. */
  function GenerateChord(rootNote: string, rootOctave: Option<int>, chordType: Option<string>): Result<seq<int>, TheoryError> {
    var t := chordType.GetOr("major");
    Build(ChordIntervals(t), UnknownChordType(t), rootNote, rootOctave)
  }

  /** An unknown type wins over an unknown root; a known root in octave `o`
      gives `index + 12*o` plus each interval, in table order. */
  lemma BuildContract(table: Option<seq<int>>, typeError: TheoryError, rootNote: string, rootOctave: Option<int>)
    ensures table.None? ==> Build(table, typeError, rootNote, rootOctave) == Err(typeError)
    ensures table.Some? && rootNote !in NOTE_NAMES ==>
              Build(table, typeError, rootNote, rootOctave) == Err(UnknownRootNote(rootNote))
    ensures table.Some? && rootNote in NOTE_NAMES ==>
              var r := Build(table, typeError, rootNote, rootOctave);
              r.Ok? && |r.value| == |table.value| && NOTE_NAMES[NoteIndex(rootNote)] == rootNote &&
              forall i :: 0 <= i < |r.value| ==> r.value[i] == NoteIndex(rootNote) + 12 * rootOctave.GetOr(4) + table.value[i]
  {
    NoteIndexIsIndexOf(rootNote);
  }

  /** Over an ascending table, the built notes ascend from the root. */
  lemma BuildAscends(table: Option<seq<int>>, typeError: TheoryError, rootNote: string, rootOctave: Option<int>)
    requires table.Some? && |table.value| > 0 && table.value[0] == 0 && StrictlyAscending(table.value)
    requires rootNote in NOTE_NAMES
    ensures var r := Build(table, typeError, rootNote, rootOctave);
            r.Ok? && |r.value| == |table.value| && StrictlyAscending(r.value) &&
            r.value[0] == NoteIndex(rootNote) + 12 * rootOctave.GetOr(4) &&
            forall i :: 0 <= i < |r.value| ==> r.value[i] == NoteIndex(rootNote) + 12 * rootOctave.GetOr(4) + table.value[i]
  {
    BuildContract(table, typeError, rootNote, rootOctave);
  }

  /** With `t` the scale type ('major' when omitted) and `o` the octave (4
      when omitted): an unknown type is the error first, then an unknown
      root; otherwise the scale ascends strictly from `index + 12*o`, one
      note per interval of `t`. */
  lemma GenerateScaleContract(rootNote: string, rootOctave: Option<int>, scaleType: Option<string>)
    ensures var t := scaleType.GetOr("major");
            ScaleIntervals(t).None? ==> GenerateScale(rootNote, rootOctave, scaleType) == Err(UnknownScaleType(t))
    ensures var t := scaleType.GetOr("major");
            ScaleIntervals(t).Some? && rootNote !in NOTE_NAMES ==>
              GenerateScale(rootNote, rootOctave, scaleType) == Err(UnknownRootNote(rootNote))
    ensures var t, o := scaleType.GetOr("major"), rootOctave.GetOr(4);
            ScaleIntervals(t).Some? && rootNote in NOTE_NAMES ==>
              var r := GenerateScale(rootNote, rootOctave, scaleType);
              r.Ok? && |r.value| == |ScaleIntervals(t).value| && StrictlyAscending(r.value) &&
              r.value[0] == NoteIndex(rootNote) + 12 * o &&
              forall i :: 0 <= i < |r.value| ==> r.value[i] == NoteIndex(rootNote) + 12 * o + ScaleIntervals(t).value[i]
  {
    var t := scaleType.GetOr("major");
    var iv := ScaleIntervals(t);
    assert GenerateScale(rootNote, rootOctave, scaleType) == Build(iv, UnknownScaleType(t), rootNote, rootOctave);
    if iv.Some? && rootNote in NOTE_NAMES {
      ScaleTableAscends(t);
      BuildAscends(iv, UnknownScaleType(t), rootNote, rootOctave);
    } else {
      BuildContract(iv, UnknownScaleType(t), rootNote, rootOctave);
    }
  }

  /** The same for generateChord over CHORDS. */
  lemma GenerateChordContract(rootNote: string, rootOctave: Option<int>, chordType: Option<string>)
    ensures var t := chordType.GetOr("major");
            ChordIntervals(t).None? ==> GenerateChord(rootNote, rootOctave, chordType) == Err(UnknownChordType(t))
    ensures var t := chordType.GetOr("major");
            ChordIntervals(t).Some? && rootNote !in NOTE_NAMES ==>
              GenerateChord(rootNote, rootOctave, chordType) == Err(UnknownRootNote(rootNote))
    ensures var t, o := chordType.GetOr("major"), rootOctave.GetOr(4);
            ChordIntervals(t).Some? && rootNote in NOTE_NAMES ==>
              var r := GenerateChord(rootNote, rootOctave, chordType);
              r.Ok? && |r.value| == |ChordIntervals(t).value| && StrictlyAscending(r.value) &&
              r.value[0] == NoteIndex(rootNote) + 12 * o &&
              forall i :: 0 <= i < |r.value| ==> r.value[i] == NoteIndex(rootNote) + 12 * o + ChordIntervals(t).value[i]
  {
    var t := chordType.GetOr("major");
    var iv := ChordIntervals(t);
    assert GenerateChord(rootNote, rootOctave, chordType) == Build(iv, UnknownChordType(t), rootNote, rootOctave);
    if iv.Some? && rootNote in NOTE_NAMES {
      ChordTableAscends(t);
      BuildAscends(iv, UnknownChordType(t), rootNote, rootOctave);
    } else {
      BuildContract(iv, UnknownChordType(t), rootNote, rootOctave);
    }
  }

  // ---------------------------------------------------------------------
  // Progressions

  /** PROGRESSIONS: 1-based scale degrees. */
  function ProgressionDegrees(progressionName: string): Option<seq<int>> {
    match progressionName
    case "1-4-5" => Some([1, 4, 5, 1])
    case "1-5-6-4" => Some([1, 5, 6, 4])
    case "1-6-4-5" => Some([1, 6, 4, 5])
    case "1-4-6-5" => Some([1, 4, 6, 5])
    case "2-5-1" => Some([2, 5, 1])
    case "canon" => Some([1, 5, 6, 3, 4, 1, 4, 5])
    case _ => None
  }

  /** The chord type chosen for a scale degree. */
  function DegreeQuality(scaleType: string, scaleDegree: int): string {
    var base := if scaleType == "minor" then "minor" else "major";
    var third := if scaleType == "major" && scaleDegree in {2, 3, 6} then "minor" else base;
    if scaleType == "major" && scaleDegree == 7 then "diminished" else third
  }

  /** The quality rule: every degree of a minor scale is minor; in a major
      scale degrees 2, 3 and 6 are minor, 7 is diminished and the rest
      major; any other scale gives major chords. */
  lemma DegreeQualityRule(scaleType: string, scaleDegree: int)
    ensures scaleType == "minor" ==> DegreeQuality(scaleType, scaleDegree) == "minor"
    ensures scaleType == "major" ==>
              DegreeQuality(scaleType, scaleDegree) ==
                (if scaleDegree == 7 then "diminished"
                 else if scaleDegree == 2 || scaleDegree == 3 || scaleDegree == 6 then "minor"
                 else "major")
    ensures scaleType != "major" && scaleType != "minor" ==> DegreeQuality(scaleType, scaleDegree) == "major"
    ensures ChordIntervals(DegreeQuality(scaleType, scaleDegree)).Some?
  {
  }

  /** One element of generateProgression's result. */
  datatype ProgressionChord = ProgressionChord(root: string, octave: int, chordType: string, notes: seq<int>)

  /** The chord built on one scale note: its name and octave are read with
      getNoteName's convention and fed back to generateChord. */
  function DegreeChord(rootMidiNumber: int, chordType: string): Result<ProgressionChord, TheoryError> {
    var noteName := NameAt(JsRem(rootMidiNumber, 12));
    var noteOctave := rootMidiNumber / 12 - 1;
    match GenerateChord(noteName, Some(noteOctave), Some(chordType))
    case Err(e) => Err(e)
    case Ok(notes) => Ok(ProgressionChord(noteName, noteOctave, chordType, notes))
  }

  /** The progression tables hold positive degrees, so `(degree - 1) %
      scale.length` is the same in JavaScript and Dafny. */
  predicate PositiveDegrees(degrees: seq<int>) {
    forall i :: 0 <= i < |degrees| ==> degrees[i] >= 1
  }

  function DegreeChords(scale: seq<int>, degrees: seq<int>, scaleType: string): (rs: seq<Result<ProgressionChord, TheoryError>>)
    requires |scale| > 0 && PositiveDegrees(degrees)
    ensures |rs| == |degrees|
  {
    seq(|degrees|, i requires 0 <= i < |degrees| =>
      DegreeChord(scale[(degrees[i] - 1) % |scale|], DegreeQuality(scaleType, degrees[i])))
  }

  lemma ProgressionDegreesPositive(progressionName: string)
    ensures ProgressionDegrees(progressionName).Some? ==> PositiveDegrees(ProgressionDegrees(progressionName).value)
  {
  }

  /** generateProgression; the scale type is 'major' when omitted, and the
      octave is passed on to generateScale as given. */
  function GenerateProgression(key: string, octave: Option<int>, progressionName: string, scaleType: Option<string>): Result<seq<ProgressionChord>, TheoryError> {
    var t := scaleType.GetOr("major");
    ProgressionDegreesPositive(progressionName);
    ProgressionFrom(progressionName, ProgressionDegrees(progressionName), GenerateScale(key, octave, Some(t)), t)
  }

  /** The body of generateProgression once the table lookup and the scale
      are known. */
  function ProgressionFrom(progressionName: string, degrees: Option<seq<int>>, scale: Result<seq<int>, TheoryError>, scaleType: string): Result<seq<ProgressionChord>, TheoryError>
    requires degrees.Some? ==> PositiveDegrees(degrees.value)
  {
    match degrees
    case None => Err(UnknownProgression(progressionName))
    case Some(ds) =>
      match scale
      case Err(e) => Err(e)
      case Ok(notes) =>
        // generateScale never returns an empty scale (BuildContract); the
        // guard only keeps `% scale.length` away from a zero divisor.
        if |notes| == 0 then Ok([]) else AllOk(DegreeChords(notes, ds, scaleType))
  }

  /** A chord on a non-negative scale note `m` is spelled NOTE_NAMES[m%12]
      in octave m/12 - 1, and so its notes start at `m - 12`. */
  lemma DegreeChordOf(m: int, chordType: string)
    requires m >= 0 && ChordIntervals(chordType).Some?
    ensures DegreeChord(m, chordType) ==
              Ok(ProgressionChord(NOTE_NAMES[m % 12], m / 12 - 1, chordType, Offset(m - 12, ChordIntervals(chordType).value)))
  {
    var k := m % 12;
    assert JsRem(m, 12) == k;
    NoteIndexOfNames();
    assert NoteIndex(NOTE_NAMES[k]) == k;
    assert k + (m / 12 - 1) * 12 == m - 12;
    assert GetNoteNumber(NOTE_NAMES[k], Some(m / 12 - 1)) == Some(m - 12);
  }

  /** With every scale note non-negative, each degree yields the chord of
      its quality on its scale note, one octave down. */
  lemma {:induction false} DegreeChordsOk(scale: seq<int>, degrees: seq<int>, scaleType: string)
    requires |scale| > 0 && PositiveDegrees(degrees)
    requires forall j :: 0 <= j < |scale| ==> scale[j] >= 0
    ensures var r := AllOk(DegreeChords(scale, degrees, scaleType));
            r.Ok? && |r.value| == |degrees| &&
            forall i :: 0 <= i < |degrees| ==>
              r.value[i].chordType == DegreeQuality(scaleType, degrees[i]) &&
              r.value[i].notes == Offset(scale[(degrees[i] - 1) % |scale|] - 12, ChordIntervals(r.value[i].chordType).value)
  {
    var rs := DegreeChords(scale, degrees, scaleType);
    forall i | 0 <= i < |degrees|
      ensures rs[i].Ok? && rs[i].value.chordType == DegreeQuality(scaleType, degrees[i])
      ensures rs[i].value.notes == Offset(scale[(degrees[i] - 1) % |scale|] - 12, ChordIntervals(DegreeQuality(scaleType, degrees[i])).value)
    {
      var j := (degrees[i] - 1) % |scale|;
      DegreeQualityRule(scaleType, degrees[i]);
      DegreeChordOf(scale[j], DegreeQuality(scaleType, degrees[i]));
    }
  }

  lemma ProgressionOfScale(key: string, octave: Option<int>, progressionName: string, scaleType: Option<string>,
                           degrees: seq<int>, scale: seq<int>)
    requires ProgressionDegrees(progressionName) == Some(degrees) && GenerateScale(key, octave, scaleType) == Ok(scale)
    requires |scale| > 0
    ensures PositiveDegrees(degrees)
    ensures GenerateProgression(key, octave, progressionName, scaleType) ==
              AllOk(DegreeChords(scale, degrees, scaleType.GetOr("major")))
  {
    ProgressionDegreesPositive(progressionName);
  }

  /** generateScale in a non-negative octave gives non-negative notes. */
  lemma ScaleNonNegative(key: string, octave: Option<int>, scaleType: Option<string>)
    requires GenerateScale(key, octave, scaleType).Ok? && octave.GetOr(4) >= 0
    ensures var scale := GenerateScale(key, octave, scaleType).value;
            |scale| > 0 && forall j :: 0 <= j < |scale| ==> scale[j] >= 0
  {
    ScaleTableAscends(scaleType.GetOr("major"));
    var iv := ScaleIntervals(scaleType.GetOr("major")).value;
    assert forall j :: 0 <= j < |iv| ==> iv[j] >= iv[0];
  }

  /** generateProgression throws on an unknown progression name and passes
      on the errors of generateScale. */
  lemma GenerateProgressionErrors(key: string, octave: Option<int>, progressionName: string, scaleType: Option<string>)
    ensures ProgressionDegrees(progressionName).None? ==>
              GenerateProgression(key, octave, progressionName, scaleType) == Err(UnknownProgression(progressionName))
    ensures ProgressionDegrees(progressionName).Some? && GenerateScale(key, octave, scaleType).Err? ==>
              GenerateProgression(key, octave, progressionName, scaleType) == Err(GenerateScale(key, octave, scaleType).error)
  {
  }

  /** For a known progression and key in a non-negative octave,
      generateProgression returns one chord per degree, of the degree's
      quality, whose notes are the chord on the degree's scale note one
      octave down. */
  lemma GenerateProgressionChords(key: string, octave: Option<int>, progressionName: string, scaleType: Option<string>,
                                  degrees: seq<int>, scale: seq<int>)
    requires ProgressionDegrees(progressionName) == Some(degrees)
    requires GenerateScale(key, octave, scaleType) == Ok(scale) && octave.GetOr(4) >= 0
    ensures |scale| > 0
    ensures var r := GenerateProgression(key, octave, progressionName, scaleType);
            r.Ok? && |r.value| == |degrees| &&
            forall i :: 0 <= i < |degrees| ==>
              r.value[i].chordType == DegreeQuality(scaleType.GetOr("major"), degrees[i]) &&
              r.value[i].notes == Offset(scale[(degrees[i] - 1) % |scale|] - 12, ChordIntervals(r.value[i].chordType).value)
  {
    ScaleNonNegative(key, octave, scaleType);
    ProgressionOfScale(key, octave, progressionName, scaleType, degrees, scale);
    DegreeChordsOk(scale, degrees, scaleType.GetOr("major"));
  }
}
