// routes/musicTheoryRoutes.js: the stand-in music-theory routes of the
// top-level server. `getScaleNotes` turns a key such as "F#3" into a root
// and a scale of MIDI numbers with their names; the chord route builds a
// chord on that root; analyze-chord is a fixed answer. The Express request
// and response handling around them is not modelled.
module RootTheoryRoutes {
  import opened JsSupport
  import opened NoteNames
  import opened NoteMap

  /** The `scales` table of getScaleNotes. */
  const SCALES: seq<(string, seq<int>)> := [
    ("major", [0, 2, 4, 5, 7, 9, 11]),
    ("minor", [0, 2, 3, 5, 7, 8, 10]),
    ("pentatonic", [0, 2, 4, 7, 9]),
    ("blues", [0, 3, 5, 6, 7, 10]),
    ("dorian", [0, 2, 3, 5, 7, 9, 10]),
    ("phrygian", [0, 1, 3, 5, 7, 8, 10]),
    ("lydian", [0, 2, 4, 6, 7, 9, 11]),
    ("mixolydian", [0, 2, 4, 5, 7, 9, 10]),
    ("locrian", [0, 1, 3, 5, 6, 8, 10])
  ]

  const MAJOR_SCALE: seq<int> := [0, 2, 4, 5, 7, 9, 11]

  /** The `chordMap` table of the chord route. */
  const CHORDS: seq<(string, seq<int>)> := [
    ("major", [0, 4, 7]),
    ("minor", [0, 3, 7]),
    ("seventh", [0, 4, 7, 10]),
    ("diminished", [0, 3, 6]),
    ("augmented", [0, 4, 8])
  ]

  const MAJOR_CHORD: seq<int> := [0, 4, 7]

  // ---------------------------------------------------------------------
  // Reading the key

  /** `/[A-G][#b]?[0-9]/` matches at position `i`. */
  predicate MatchAt(s: string, i: nat)
    requires i < |s|
  {
    IsLetter(s[i]) &&
    ((i + 1 < |s| && IsDigit(s[i + 1])) ||
     (i + 2 < |s| && (s[i + 1] == '#' || s[i + 1] == 'b') && IsDigit(s[i + 2])))
  }

  /** `key.match(/[A-G][#b]?[0-9]/)`: the pattern occurs somewhere in the
      key (it is not anchored). */
  predicate HasOctave(s: string) {
    exists i :: 0 <= i < |s| && MatchAt(s, i)
  }

  /** When the key minus its last character is a note name, the match of the
      pattern ends at the last character, so that character is a digit and
      `parseInt` of it is a number. */
  lemma OctaveDigit(key: string)
    requires HasOctave(key) && NoteMapSemitone(key[..|key| - 1]).Some?
    ensures IsDigit(key[|key| - 1])
  {
    var name := key[..|key| - 1];
    var i :| 0 <= i < |key| && MatchAt(key, i);
    var p := if i + 1 < |key| && IsDigit(key[i + 1]) then i + 1 else i + 2;
    assert IsDigit(key[p]);
    forall q | 0 <= q < |name| ensures !IsDigit(key[q]) {
      NoteNameHasNoDigit(name, q);
      assert name[q] == key[q];
    }
  }

  /** The root getScaleNotes computes: `12 * (octave + 1)` plus the key's
      semitone, the octave being the key's last digit when the key holds the
      pattern and 4 otherwise; 60 when the (trimmed) key is not a note
      name. */
  function ScaleRoot(key: string): (root: int)
    ensures 12 <= root < 132
  {
    if HasOctave(key) then
      match NoteMapSemitone(key[..|key| - 1])
      case Some(semitone) =>
        OctaveDigit(key);
        12 * (DigitValue(key[|key| - 1]) + 1) + semitone
      case None => 60
    else
      match NoteMapSemitone(key)
      case Some(semitone) => 12 * (4 + 1) + semitone
      case None => 60
  }

  /** A note name followed by one digit is read as that octave. */
  lemma ScaleRootOfNoteAndOctave(name: string, semitone: int, octave: int)
    requires (name, semitone) in NOTE_MAP && 0 <= octave < 10
    ensures ScaleRoot(name + [DigitChar(octave)]) == 12 * (octave + 1) + semitone
  {
    NoteMapSemitoneIsTable(name, semitone);
    var key := name + [DigitChar(octave)];
    assert MatchAt(key, 0);
    assert key[..|key| - 1] == name;
  }

  /** A bare note name is in octave 4. */
  lemma ScaleRootOfNote(name: string, semitone: int)
    requires (name, semitone) in NOTE_MAP
    ensures ScaleRoot(name) == 60 + semitone
  {
    NoteMapSemitoneIsTable(name, semitone);
    forall i | 0 <= i < |name| ensures !MatchAt(name, i) {
      if i + 1 < |name| {
        NoteNameHasNoDigit(name, i + 1);
      }
    }
  }

  /** A key that is not a note name and holds no octave pattern falls back
      to middle C. */
  lemma ScaleRootUnknown(key: string)
    requires !HasOctave(key) && forall i :: 0 <= i < |NOTE_MAP| ==> NOTE_MAP[i].0 != key
    ensures ScaleRoot(key) == 60
  {
    if NoteMapSemitone(key).Some? {
      NoteMapSemitoneIsTable(key, NoteMapSemitone(key).value);
      assert false;
    }
  }

  // ---------------------------------------------------------------------
  // getScaleNotes

  /** `scales[scaleType] || scales.major`. */
  function ScaleIntervals(scaleType: string): (r: seq<int>)
    ensures Lookup(SCALES, scaleType).None? ==> r == MAJOR_SCALE
    ensures |r| > 0 && r[0] == 0
  {
    Lookup(SCALES, scaleType).GetOr(MAJOR_SCALE)
  }

  /** Every scale of the table starts on the root and stays within the
      octave above it. */
  lemma ScaleRows()
    ensures forall i :: 0 <= i < |SCALES| ==> |SCALES[i].1| > 0 && SCALES[i].1[0] == 0
    ensures forall i, j :: 0 <= i < |SCALES| && 0 <= j < |SCALES[i].1| ==> 0 <= SCALES[i].1[j] < 12
  {
  }

  /** The name getScaleNotes gives a MIDI number: its sharp name and
      `Math.floor(midi / 12) - 1`. */
  function MidiName(midi: nat): string {
    NOTE_NAMES[midi % 12] + IntToString(midi / 12 - 1)
  }

  datatype ScaleNotes = ScaleNotes(notes: seq<string>, midiNotes: seq<int>, key: string, scaleType: string)

  /** `midiNotes.map(...)` naming each note. */
  function Names(midiNotes: seq<nat>): (r: seq<string>)
    ensures |r| == |midiNotes|
  {
    seq(|midiNotes|, i requires 0 <= i < |midiNotes| => MidiName(midiNotes[i]))
  }

  /** `intervals.map(interval => rootNote + interval)`. */
  function Transposed(root: nat, intervals: seq<int>): (r: seq<nat>)
    requires forall i :: 0 <= i < |intervals| ==> intervals[i] >= 0
    ensures |r| == |intervals|
  {
    seq(|intervals|, i requires 0 <= i < |intervals| => root + intervals[i])
  }

  lemma ScaleIntervalsNonNegative(scaleType: string)
    ensures forall i :: 0 <= i < |ScaleIntervals(scaleType)| ==> 0 <= ScaleIntervals(scaleType)[i] < 12
  {
    var r := ScaleIntervals(scaleType);
    ScaleRows();
    if Lookup(SCALES, scaleType).Some? {
      var j :| 0 <= j < |SCALES| && SCALES[j] == (scaleType, r);
    }
  }

  /** getScaleNotes. */
  function GetScaleNotes(key: string, scaleType: string): ScaleNotes {
    ScaleIntervalsNonNegative(scaleType);
    var midiNotes := Transposed(ScaleRoot(key), ScaleIntervals(scaleType));
    ScaleNotes(Names(midiNotes), midiNotes, key, scaleType)
  }

  /** The scale is the root plus each interval of the scale type (of the
      major scale for an unknown type), and each note is named after its
      MIDI number. */
  lemma GetScaleNotesContract(key: string, scaleType: string, i: nat)
    requires i < |ScaleIntervals(scaleType)|
    ensures var r := GetScaleNotes(key, scaleType);
      |r.midiNotes| == |r.notes| == |ScaleIntervals(scaleType)| &&
      r.midiNotes[i] == ScaleRoot(key) + ScaleIntervals(scaleType)[i] && r.notes[i] == MidiName(r.midiNotes[i])
  {
  }

  /** The first note of every scale is the root itself. */
  lemma FirstScaleNote(key: string, scaleType: string)
    ensures var r := GetScaleNotes(key, scaleType);
      |r.midiNotes| > 0 && r.midiNotes[0] == ScaleRoot(key) && r.notes[0] == MidiName(ScaleRoot(key))
  {
    GetScaleNotesContract(key, scaleType, 0);
  }

  /** The name of a pitch in octaves 0 to 9 is its sharp name and the octave
      digit. */
  lemma MidiNameOfPitch(k: int, octave: int)
    requires 0 <= k < 12 && 0 <= octave < 10
    ensures MidiName(12 * (octave + 1) + k) == NOTE_NAMES[k] + [DigitChar(octave)]
  {
    var m := 12 * (octave + 1) + k;
    assert m % 12 == k && m / 12 - 1 == octave;
  }


  /** A sharp or natural key with an octave digit starts its scale at the
      key's own pitch. */
  lemma ScaleStartsAtKey(k: int, octave: int, scaleType: string, key: string)
    requires 0 <= k < 12 && 0 <= octave < 10
    requires key == NOTE_NAMES[k] + [DigitChar(octave)]
    ensures GetScaleNotes(key, scaleType).midiNotes[0] == 12 * (octave + 1) + k
  {
    FirstScaleNote(key, scaleType);
    SharpNamesInNoteMap(k);
    ScaleRootOfNoteAndOctave(NOTE_NAMES[k], k, octave);
  }

  /** ... and names its own first scale note: the key reads back from the
      result. */
  lemma ScaleNamesItsKey(k: int, octave: int, scaleType: string, key: string)
    requires 0 <= k < 12 && 0 <= octave < 10
    requires key == NOTE_NAMES[k] + [DigitChar(octave)]
    ensures GetScaleNotes(key, scaleType).notes[0] == key
  {
    FirstScaleNote(key, scaleType);
    SharpNamesInNoteMap(k);
    ScaleRootOfNoteAndOctave(NOTE_NAMES[k], k, octave);
    MidiNameOfPitch(k, octave);
  }

  /** A flat key is named by its sharp spelling: B flat as A sharp. */
  lemma FlatKeysReadAsSharps(octave: int, scaleType: string)
    requires 0 <= octave < 10
    ensures GetScaleNotes("Bb" + [DigitChar(octave)], scaleType).notes[0] == "A#" + [DigitChar(octave)]
  {
    FirstScaleNote("Bb" + [DigitChar(octave)], scaleType);
    ScaleRootOfNoteAndOctave("Bb", 10, octave);
    MidiNameOfPitch(10, octave);
  }

  // ---------------------------------------------------------------------
  // The chord and analyze-chord routes

  datatype ChordResponse = ChordResponse(notes: seq<int>, key: string, chordType: string)

  /** `chordMap[chordType] || chordMap.major`. */
  function ChordIntervals(chordType: string): (r: seq<int>)
    ensures Lookup(CHORDS, chordType).None? ==> r == MAJOR_CHORD
  {
    Lookup(CHORDS, chordType).GetOr(MAJOR_CHORD)
  }

  /** The chord route: the chord's intervals over the key's root, the first
      note of the key's major scale. */
  function ChordRoute(key: string, chordType: string): (r: ChordResponse)
    ensures |r.notes| == |ChordIntervals(chordType)|
    ensures forall i :: 0 <= i < |r.notes| ==> r.notes[i] == ScaleRoot(key) + ChordIntervals(chordType)[i]
    ensures r.key == key && r.chordType == chordType
  {
    var rootNote := GetScaleNotes(key, "major").midiNotes[0];
    var intervals := ChordIntervals(chordType);
    ChordResponse(seq(|intervals|, i requires 0 <= i < |intervals| => rootNote + intervals[i]), key, chordType)
  }

  /** `req.body.notes`: missing (or null), an array, or some other value.
      For another value, `first` is what `notes[0]` reads when that is a
      number: the property "0" of an object such as `{"0": 64}`. A number,
      a boolean or a string never reads a number there (None). */
  datatype ChordNotes = NotesMissing | NotesArray(values: seq<int>) | NotesOther(first: Option<int>)

  datatype Analysis = Analysis(root: string, chordType: string, inversion: int)

  /** Reading `notes[0]` of a missing value throws; the route turns that
      into a 400 response. */
  datatype AnalyzeError = NotesUnreadable

  /** analyze-chord: always a C major chord, in first inversion exactly when
      `notes[0]` is the number 64 (E4), whether `notes` is an array or not. */
  function AnalyzeChord(notes: ChordNotes): (r: Result<Analysis, AnalyzeError>)
    ensures r.Err? <==> notes.NotesMissing?
    ensures r.Ok? ==> r.value.root == "C" && r.value.chordType == "major"
    ensures r.Ok? ==> (r.value.inversion == 1 <==>
                         (notes.NotesArray? && |notes.values| > 0 && notes.values[0] == 64) ||
                         (notes.NotesOther? && notes.first == Some(64)))
    ensures r.Ok? ==> r.value.inversion in {0, 1}
  {
    match notes
    case NotesMissing => Err(NotesUnreadable)
    case NotesArray(values) => Ok(Analysis("C", "major", if |values| > 0 && values[0] == 64 then 1 else 0))
    case NotesOther(first) => Ok(Analysis("C", "major", if first == Some(64) then 1 else 0))
  }
}
