// MusicTheory of src/core/midi-framework.js: note names and MIDI numbers,
// the scale and chord interval tables, Roman-numeral progressions and key
// signatures. Every `throw` of the source is an `Err` of `TheoryError`.
module CoreFrameworkTheory {
  import opened JsSupport
  import opened NoteNames

  /** The messages the functions throw. */
  datatype TheoryError =
    | InvalidNoteName(name: string)
    | UnknownScaleType(scaleType: string)
    | UnknownChordType(chordType: string)
    | InvalidRootNote(root: string)
    | InvalidProgressionFormat
    | InvalidChordSymbol(degree: string)
    | InvalidKeyFormat(key: string)

  // ---------------------------------------------------------------------
  // getNoteName

  /** `NOTE_NAMES[midiNote % 12]`: with JavaScript's remainder, a negative
      number that is not a multiple of 12 reads a negative index and gets
      `undefined`, which the template literal spells out. */
  function PitchClassName(midiNote: int): (name: string)
    ensures midiNote >= 0 ==> name == NOTE_NAMES[midiNote % 12]
  {
    var k := JsRem(midiNote, 12);
    if 0 <= k then NOTE_NAMES[k] else "undefined"
  }

  /** `getNoteName(midiNote)`: the pitch-class name followed by the octave
      `Math.floor(midiNote / 12) - 1`, so that 60 is "C4". */
  function GetNoteName(midiNote: int): string {
    PitchClassName(midiNote) + IntToString(midiNote / 12 - 1)
  }

  // ---------------------------------------------------------------------
  // getNoteNumber: /([A-G][#b]?)(\d+)/

  predicate IsNoteLetter(c: char) {
    'A' <= c <= 'G'
  }

  predicate IsAccidental(c: char) {
    c == '#' || c == 'b'
  }

  /** The end of the run of digits that starts at `p` (`\d+` and `\d*` are
      greedy). */
  function DigitRunEnd(s: string, p: nat): (e: nat)
    requires p <= |s|
    ensures p <= e <= |s| && AllDigits(s[p..e])
    ensures e < |s| ==> !IsDigit(s[e])
    decreases |s| - p
  {
    if p == |s| || !IsDigit(s[p]) then p
    else
      var e := DigitRunEnd(s, p + 1);
      DigitsCons(s, p, e);
      e
  }

  lemma {:induction false} DigitsCons(s: string, p: nat, e: nat)
    requires p < e <= |s| && IsDigit(s[p]) && AllDigits(s[p + 1..e])
    ensures AllDigits(s[p..e])
  {
    forall i | 0 <= i < e - p
      ensures IsDigit(s[p..e][i])
    {
      if i > 0 {
        assert s[p..e][i] == s[p + 1..e][i - 1];
      }
    }
  }

  /** The note and the octave digits of `/([A-G][#b]?)(\d+)/` tried at
      position `i`. The accidental is kept when a digit follows it; otherwise
      the engine backtracks and needs a digit right after the letter. */
  function NumberMatchAt(s: string, i: nat): (m: Option<(string, string)>)
    requires i < |s|
    ensures m.Some? ==> 1 <= |m.value.0| <= 2 && IsNoteLetter(m.value.0[0])
    ensures m.Some? ==> |m.value.0| == 2 ==> IsAccidental(m.value.0[1])
    ensures m.Some? ==> |m.value.1| > 0 && AllDigits(m.value.1)
  {
    if !IsNoteLetter(s[i]) then None
    else if i + 2 < |s| && IsAccidental(s[i + 1]) && IsDigit(s[i + 2]) then
      Some((s[i..i + 2], s[i + 2..DigitRunEnd(s, i + 2)]))
    else if i + 1 < |s| && IsDigit(s[i + 1]) then
      Some((s[i..i + 1], s[i + 1..DigitRunEnd(s, i + 1)]))
    else None
  }

  /** `regex.exec(noteName)`: the leftmost match at or after `i`. */
  function FirstNumberMatch(s: string, i: nat): (m: Option<(string, string)>)
    ensures m.Some? ==> 1 <= |m.value.0| <= 2 && IsNoteLetter(m.value.0[0])
    ensures m.Some? ==> |m.value.1| > 0 && AllDigits(m.value.1)
    decreases |s| - i
  {
    if i >= |s| then None
    else match NumberMatchAt(s, i)
      case Some(found) => Some(found)
      case None => FirstNumberMatch(s, i + 1)
  }

  /** `getNoteNumber(noteName)`: `NOTE_NAMES.indexOf(note) + (octave + 1) * 12`
      for the note and octave the pattern finds. A name with no match, or
      whose note is not in the sharp-spelled table (every flat), throws. The
      octave digits carry no sign, so no result lies below C0 = 12. */
  function GetNoteNumber(noteName: string): (r: Result<int, TheoryError>)
    ensures r.Ok? ==> r.value >= 12
    ensures FirstNumberMatch(noteName, 0).None? ==> r == Err(InvalidNoteName(noteName))
  {
    match FirstNumberMatch(noteName, 0)
    case None => Err(InvalidNoteName(noteName))
    case Some((note, octave)) =>
      var index := NoteIndex(note);
      if index == -1 then Err(InvalidNoteName(note))
      else Ok(index + (DigitsValue(octave) + 1) * 12)
  }

  /** The spelling of the entries of NOTE_NAMES: a letter, then possibly '#'. */
  predicate NoteShape(name: string) {
    1 <= |name| <= 2 && IsNoteLetter(name[0]) && (|name| == 2 ==> name[1] == '#')
  }

  lemma {:induction false} NamesHaveNoteShape(k: int)
    requires 0 <= k < 12
    ensures NoteShape(NOTE_NAMES[k])
  {
    match k
    case 0 => case 1 => case 2 => case 3 => case 4 => case 5 =>
    case 6 => case 7 => case 8 => case 9 => case 10 => case 11 =>
  }

  /** A note followed by digits matches as that note and those digits. */
  lemma {:induction false} NumberMatchOfNote(name: string, digits: string)
    requires NoteShape(name) && |digits| > 0 && AllDigits(digits)
    ensures NumberMatchAt(name + digits, 0) == Some((name, digits))
  {
    var s := name + digits;
    var n := |name|;
    DigitRunToEnd(s, n);
    assert s[n..DigitRunEnd(s, n)] == digits;
    assert s[0..n] == name;
    assert IsDigit(s[n]) by {
      assert s[n] == digits[0];
    }
  }

  /** A name from the table followed by an octave number parses to
      `index + 12 * (octave + 1)`. */
  lemma {:induction false} GetNoteNumberOfName(k: int, octave: nat)
    requires 0 <= k < 12
    ensures GetNoteNumber(NOTE_NAMES[k] + NatToString(octave)) == Ok(k + 12 * (octave + 1))
  {
    NamesHaveNoteShape(k);
    NumberMatchOfNote(NOTE_NAMES[k], NatToString(octave));
    DigitsOfNatToString(octave);
    NoteIndexOfNames();
  }

  /** A run of digits that reaches the end of the string is read whole. */
  lemma {:induction false} DigitRunToEnd(s: string, p: nat)
    requires p <= |s| && AllDigits(s[p..])
    ensures DigitRunEnd(s, p) == |s|
    decreases |s| - p
  {
    if p < |s| {
      assert s[p] == s[p..][0];
      assert s[p + 1..] == s[p..][1..];
      DigitRunToEnd(s, p + 1);
    }
  }

  /** A flat is read as a note but is not in the table: "Db4" throws with
      the note "Db". */
  lemma {:induction false} GetNoteNumberOfFlat(c: char, octave: nat)
    requires c in "DEGAB"
    ensures GetNoteNumber([c, 'b'] + NatToString(octave)) == Err(InvalidNoteName([c, 'b']))
  {
    var digits := NatToString(octave);
    var s := [c, 'b'] + digits;
    assert IsDigit(digits[0]) && s[2] == digits[0];
    assert s[0..2] == [c, 'b'];
    assert NumberMatchAt(s, 0).Some? && NumberMatchAt(s, 0).value.0 == [c, 'b'];
  }

  /** A name without digits has no match and throws. */
  lemma {:induction false} NoNumberMatchWithoutDigit(s: string, i: nat)
    requires !ContainsDigit(s)
    ensures FirstNumberMatch(s, i) == None
    decreases |s| - i
  {
    if i < |s| {
      NoNumberMatchWithoutDigit(s, i + 1);
    }
  }

  /** Round trip: from C0 (12) upwards, the name getNoteName gives parses
      back to the number. Below 12 the octave is "-1", whose sign the
      pattern cannot read (see NameBelowOctaveZeroThrows). */
  lemma {:induction false} NoteNameRoundTrip(midiNote: int)
    requires midiNote >= 12
    ensures GetNoteNumber(GetNoteName(midiNote)) == Ok(midiNote)
  {
    var k, octave := midiNote % 12, midiNote / 12 - 1;
    assert GetNoteName(midiNote) == NOTE_NAMES[k] + NatToString(octave);
    GetNoteNumberOfName(k, octave);
  }

  /** The names of the notes 0 to 11 end in "-1" and do not parse. */
  lemma {:induction false} NameBelowOctaveZeroThrows(midiNote: int)
    requires 0 <= midiNote < 12
    ensures GetNoteNumber(GetNoteName(midiNote)).Err?
  {
    var s := GetNoteName(midiNote);
    assert s == NOTE_NAMES[midiNote] + "-1";
    assert FirstNumberMatch(s, |s| - 1) == None;
    if |NOTE_NAMES[midiNote]| == 2 {
      assert FirstNumberMatch(s, 2) == None;
    }
    assert FirstNumberMatch(s, 1) == None;
  }

  // ---------------------------------------------------------------------
  // SCALES and CHORDS

  /** Intervals in semitones above the root: starting at the root, strictly
      rising, within one octave. */
  predicate IntervalShape(p: seq<int>) {
    |p| > 0 && p[0] == 0 && (forall i :: 0 <= i < |p| - 1 ==> p[i] < p[i + 1]) && p[|p| - 1] < 12
  }

  /** `SCALES[name]`. */
  function ScalePattern(name: string): (p: Option<seq<int>>)
    ensures p.Some? ==> IntervalShape(p.value)
  {
    if name == "major" then Some([0, 2, 4, 5, 7, 9, 11])
    else if name == "minor" then Some([0, 2, 3, 5, 7, 8, 10])
    else if name == "harmonic minor" then Some([0, 2, 3, 5, 7, 8, 11])
    else if name == "melodic minor" then Some([0, 2, 3, 5, 7, 9, 11])
    else if name == "pentatonic major" then Some([0, 2, 4, 7, 9])
    else if name == "pentatonic minor" then Some([0, 3, 5, 7, 10])
    else if name == "blues" then Some([0, 3, 5, 6, 7, 10])
    else if name == "dorian" then Some([0, 2, 3, 5, 7, 9, 10])
    else if name == "phrygian" then Some([0, 1, 3, 5, 7, 8, 10])
    else if name == "lydian" then Some([0, 2, 4, 6, 7, 9, 11])
    else if name == "mixolydian" then Some([0, 2, 4, 5, 7, 9, 10])
    else if name == "locrian" then Some([0, 1, 3, 5, 6, 8, 10])
    else None
  }

  /** `CHORDS[name]`. */
  function ChordPattern(name: string): (p: Option<seq<int>>)
    ensures p.Some? ==> IntervalShape(p.value)
  {
    if name == "major" then Some([0, 4, 7])
    else if name == "minor" then Some([0, 3, 7])
    else if name == "diminished" then Some([0, 3, 6])
    else if name == "augmented" then Some([0, 4, 8])
    else if name == "sus2" then Some([0, 2, 7])
    else if name == "sus4" then Some([0, 5, 7])
    else if name == "major7" then Some([0, 4, 7, 11])
    else if name == "minor7" then Some([0, 3, 7, 10])
    else if name == "dominant7" then Some([0, 4, 7, 10])
    else if name == "diminished7" then Some([0, 3, 6, 9])
    else if name == "augmented7" then Some([0, 4, 8, 10])
    else if name == "halfDiminished7" then Some([0, 3, 6, 10])
    else if name == "minorMajor7" then Some([0, 3, 7, 11])
    else None
  }

  // ---------------------------------------------------------------------
  // generateScale and generateChord

  /** The `root` argument: a MIDI number, used as it is, or a name. */
  datatype Root = NumberRoot(number: int) | NameRoot(name: string)

  /** The note and the optional octave digits of `/([A-G][#b]?)(\d+)?/` at a
      note letter: the accidental and the digits are both optional and
      greedy. */
  function RootMatchAt(s: string, i: nat): (m: (string, string))
    requires i < |s| && IsNoteLetter(s[i])
    ensures 1 <= |m.0| <= 2 && m.0[0] == s[i] && AllDigits(m.1)
    ensures i + |m.0| <= |s| && s[i..i + |m.0|] == m.0
  {
    var nameEnd := if i + 1 < |s| && IsAccidental(s[i + 1]) then i + 2 else i + 1;
    (s[i..nameEnd], s[nameEnd..DigitRunEnd(s, nameEnd)])
  }

  /** `root.match(...)`: the match at the leftmost note letter. */
  function FirstRootMatch(s: string, i: nat): (m: Option<(string, string)>)
    ensures m.Some? ==> 1 <= |m.value.0| <= 2 && AllDigits(m.value.1)
    decreases |s| - i
  {
    if i >= |s| then None
    else if IsNoteLetter(s[i]) then Some(RootMatchAt(s, i))
    else FirstRootMatch(s, i + 1)
  }

  /** The root and octave after the match: a matched name keeps only its
      note, and digits after it (a non-empty string is truthy) replace the
      octave. A number, or a name without a note letter, is kept. */
  function ReadRoot(root: Root, octave: int): (Root, int) {
    match root
    case NumberRoot(_) => (root, octave)
    case NameRoot(s) =>
      match FirstRootMatch(s, 0)
      case None => (root, octave)
      case Some((note, digits)) =>
        (NameRoot(note), if |digits| > 0 then DigitsValue(digits) else octave)
  }

  /** The MIDI number of the root: a number as it is, a name as
      `NOTE_NAMES.indexOf(name) + octave * 12`, or a throw. */
  function RootNumber(root: Root, octave: int): (r: Result<int, TheoryError>)
    ensures root.NumberRoot? ==> r == Ok(root.number)
  {
    match root
    case NumberRoot(n) => Ok(n)
    case NameRoot(name) =>
      var index := NoteIndex(name);
      if index == -1 then Err(InvalidRootNote(name)) else Ok(index + octave * 12)
  }

  /** `root + interval` for every interval of a looked-up table entry: the
      type is looked up after `toLowerCase()`, so an unknown type throws
      before the root is read. */
  function FromPattern(pattern: Option<seq<int>>, unknown: TheoryError, root: Root, octave: int): (r: Result<seq<int>, TheoryError>)
    ensures pattern.None? ==> r == Err(unknown)
    ensures r.Ok? ==> |r.value| == |pattern.value|
  {
    match pattern
    case None => Err(unknown)
    case Some(intervals) =>
      match RootNumber(root, octave)
      case Err(e) => Err(e)
      case Ok(rootNote) => Ok(Offset(rootNote, intervals))
  }

  /** A name of the table followed by digits is read as that name, in the
      octave the digits give, else in the default one. */
  lemma {:induction false} NamedRootNumber(name: string, digits: string, octave: int, o: int)
    requires NoteIndex(name) >= 0 && AllDigits(digits)
    requires o == if |digits| > 0 then DigitsValue(digits) else octave
    ensures ReadRoot(NameRoot(name + digits), octave) == (NameRoot(name), o)
    ensures RootNumber(NameRoot(name), o) == Ok(NoteIndex(name) + 12 * o)
  {
    NoteShapeOfIndex(name);
    ReadNoteRoot(name, digits, octave);
  }

  /** The shared body of generateScale and generateChord: read the root,
      then apply the looked-up pattern. */
  function Generate(pattern: Option<seq<int>>, unknown: TheoryError, root: Root, octave: Option<int>): (r: Result<seq<int>, TheoryError>)
    ensures pattern.None? ==> r == Err(unknown)
    ensures r.Ok? ==> |r.value| == |pattern.value|
  {
    var read := ReadRoot(root, octave.GetOr(4));
    FromPattern(pattern, unknown, read.0, read.1)
  }

  /** `generateScale(root, scaleType, octave = 4)`. */
  function GenerateScale(root: Root, scaleType: string, octave: Option<int>): (r: Result<seq<int>, TheoryError>)
    ensures ScalePattern(ToLower(scaleType)).None? ==> r == Err(UnknownScaleType(scaleType))
    ensures r.Ok? ==> |r.value| == |ScalePattern(ToLower(scaleType)).value|
  {
    Generate(ScalePattern(ToLower(scaleType)), UnknownScaleType(scaleType), root, octave)
  }

  /** `generateChord(root, chordType, octave = 4)`. */
  function GenerateChord(root: Root, chordType: string, octave: Option<int>): (r: Result<seq<int>, TheoryError>)
    ensures ChordPattern(ToLower(chordType)).None? ==> r == Err(UnknownChordType(chordType))
    ensures r.Ok? ==> |r.value| == |ChordPattern(ToLower(chordType)).value|
  {
    Generate(ChordPattern(ToLower(chordType)), UnknownChordType(chordType), root, octave)
  }

  /** A note followed by digits reads as that note, and the digits, when
      there are any, replace the octave. */
  lemma {:induction false} ReadNoteRoot(name: string, digits: string, octave: int)
    requires NoteShape(name) && AllDigits(digits)
    ensures ReadRoot(NameRoot(name + digits), octave)
      == (NameRoot(name), if |digits| > 0 then DigitsValue(digits) else octave)
  {
    var s := name + digits;
    var n := |name|;
    DigitRunToEnd(s, n);
    assert s[n..DigitRunEnd(s, n)] == digits;
    assert s[0..n] == name;
    assert n == (if 1 < |s| && IsAccidental(s[1]) then 2 else 1) by {
      if n == 1 && |digits| > 0 {
        assert s[1] == digits[0];
      }
    }
    assert RootMatchAt(s, 0) == (name, digits);
    assert FirstRootMatch(s, 0) == Some((name, digits));
  }

  /** Every name of the table is spelled as a note letter, then possibly '#'. */
  lemma {:induction false} NoteShapeOfIndex(name: string)
    requires NoteIndex(name) >= 0
    ensures NoteShape(name)
  {
  }

  /** A named root: `NOTE_NAMES.indexOf(name) + 12 * o` plus each interval,
      where `o` is the octave written after the name, else the argument (4
      when absent). */
  lemma {:induction false} GenerateOfName(pattern: seq<int>, unknown: TheoryError, name: string, digits: string, octave: Option<int>, o: int)
    requires NoteIndex(name) >= 0 && AllDigits(digits)
    requires o == if |digits| > 0 then DigitsValue(digits) else octave.GetOr(4)
    ensures Generate(Some(pattern), unknown, NameRoot(name + digits), octave) == Ok(Offset(NoteIndex(name) + 12 * o, pattern))
  {
    NamedRootNumber(name, digits, octave.GetOr(4), o);
  }

  lemma {:induction false} GenerateScaleOfName(name: string, digits: string, scaleType: string, octave: Option<int>, o: int, pattern: seq<int>)
    requires NoteIndex(name) >= 0 && AllDigits(digits)
    requires o == if |digits| > 0 then DigitsValue(digits) else octave.GetOr(4)
    requires ScalePattern(ToLower(scaleType)) == Some(pattern)
    ensures GenerateScale(NameRoot(name + digits), scaleType, octave) == Ok(Offset(NoteIndex(name) + 12 * o, pattern))
  {
    GenerateOfName(pattern, UnknownScaleType(scaleType), name, digits, octave, o);
  }

  lemma {:induction false} GenerateChordOfName(name: string, digits: string, chordType: string, octave: Option<int>, o: int, pattern: seq<int>)
    requires NoteIndex(name) >= 0 && AllDigits(digits)
    requires o == if |digits| > 0 then DigitsValue(digits) else octave.GetOr(4)
    requires ChordPattern(ToLower(chordType)) == Some(pattern)
    ensures GenerateChord(NameRoot(name + digits), chordType, octave) == Ok(Offset(NoteIndex(name) + 12 * o, pattern))
  {
    GenerateOfName(pattern, UnknownChordType(chordType), name, digits, octave, o);
  }

  /** A flat root is matched with its accidental, and "Db" is not in the
      table: the call throws. */
  lemma {:induction false} GenerateChordOfFlat(c: char, chordType: string, octave: Option<int>)
    requires 'A' <= c <= 'G' && ChordPattern(ToLower(chordType)).Some?
    ensures GenerateChord(NameRoot([c, 'b']), chordType, octave) == Err(InvalidRootNote([c, 'b']))
  {
    var s := [c, 'b'];
    assert s[0..2] == s && s[2..2] == "";
    assert FirstRootMatch(s, 0) == Some((s, ""));
  }

  /** `toLowerCase()` leaves no capital letter. */
  lemma {:induction false} LowerHasNoCapital(s: string, i: nat)
    requires i < |s|
    ensures !('A' <= ToLower(s)[i] <= 'Z')
  {
  }

  /** The keys halfDiminished7 and minorMajor7 hold a capital letter, so no
      lower-cased type reaches them. */
  lemma {:induction false} CamelCaseChordTypesUnreachable(chordType: string)
    ensures ToLower(chordType) != "halfDiminished7" && ToLower(chordType) != "minorMajor7"
  {
    var h, m := "halfDiminished7", "minorMajor7";
    if ToLower(chordType) == h {
      assert ToLower(chordType)[4] == 'D';
      LowerHasNoCapital(chordType, 4);
    }
    if ToLower(chordType) == m {
      assert ToLower(chordType)[5] == 'M';
      LowerHasNoCapital(chordType, 5);
    }
  }

  /** Asking for halfDiminished7 or minorMajor7 always throws. */
  lemma {:induction false} CamelCaseChordTypesThrow(chordType: string, root: Root, octave: Option<int>)
    requires chordType == "halfDiminished7" || chordType == "minorMajor7"
    ensures GenerateChord(root, chordType, octave) == Err(UnknownChordType(chordType))
  {
    CamelCaseChordTypesUnreachable(chordType);
    var lower := ToLower(chordType);
    if chordType == "halfDiminished7" {
      assert |lower| == 15;
    } else {
      assert |lower| == 11 && lower[0] == 'm';
    }
    assert ChordPattern(lower) == None;
  }

  // ---------------------------------------------------------------------
  // generateProgression

  /** The `progressionName` argument: an array of symbols, a string, or a
      value of any other type. */
  datatype ProgressionName = SymbolList(symbols: seq<string>) | NameString(name: string) | OtherValue

  /** `PROGRESSIONS[mode]?.[name]`. */
  function Predefined(mode: string, name: string): Option<seq<string>> {
    if mode == "major" then
      if name == "1-4-5" then Some(["I", "IV", "V"])
      else if name == "1-5-6-4" then Some(["I", "V", "vi", "IV"])
      else if name == "1-6-4-5" then Some(["I", "vi", "IV", "V"])
      else if name == "2-5-1" then Some(["ii", "V", "I"])
      else if name == "1-4-6-5" then Some(["I", "IV", "vi", "V"])
      else None
    else if mode == "minor" then
      if name == "1-4-5" then Some(["i", "iv", "V"])
      else if name == "1-6-4-5" then Some(["i", "VI", "iv", "V"])
      else if name == "1-4-6-5" then Some(["i", "iv", "VI", "V"])
      else if name == "2-5-1" then Some(["ii\U{00B0}", "V", "i"])
      else if name == "1-6-3-7" then Some(["i", "VI", "III", "VII"])
      else None
    else None
  }

  /** The symbols generateProgression walks: an array as it is, the mode's
      predefined progression of that name, else the name split on '-' (so
      joining the symbols with '-' gives the name back); any other value
      throws. */
  function ProgressionPattern(name: ProgressionName, mode: string): (r: Result<seq<string>, TheoryError>)
    ensures r.Err? <==> name.OtherValue?
    ensures name.SymbolList? ==> r == Ok(name.symbols)
    ensures name.NameString? && Predefined(ToLower(mode), name.name).None? ==>
      r.Ok? && |r.value| > 0 && Join(r.value, '-') == name.name
  {
    match name
    case SymbolList(symbols) => Ok(symbols)
    case NameString(n) =>
      (match Predefined(ToLower(mode), n)
       case Some(symbols) => Ok(symbols)
       case None =>
         JoinSplit(n, '-');
         Ok(Split(n, '-')))
    case OtherValue => Err(InvalidProgressionFormat)
  }

  /** `ROMAN_TO_DEGREE[symbol]`: the zero-based scale degree of a numeral,
      upper or lower case, with `°` only on ii and vii. */
  function RomanDegree(symbol: string): (d: Option<int>)
    ensures d.Some? ==> 0 <= d.value < 7
  {
    if symbol == "I" || symbol == "i" then Some(0)
    else if symbol == "II" || symbol == "ii" || symbol == "ii\U{00B0}" then Some(1)
    else if symbol == "III" || symbol == "iii" then Some(2)
    else if symbol == "IV" || symbol == "iv" then Some(3)
    else if symbol == "V" || symbol == "v" then Some(4)
    else if symbol == "VI" || symbol == "vi" then Some(5)
    else if symbol == "VII" || symbol == "vii" || symbol == "vii\U{00B0}" then Some(6)
    else None
  }

  /** The three chord types a progression uses. */
  datatype Quality = MajorChord | MinorChord | DiminishedChord
  {
    /** The chord type string passed to generateChord. */
    function Name(): string {
      match this
      case MajorChord => "major"
      case MinorChord => "minor"
      case DiminishedChord => "diminished"
    }

    function Intervals(): seq<int> {
      match this
      case MajorChord => [0, 4, 7]
      case MinorChord => [0, 3, 7]
      case DiminishedChord => [0, 3, 6]
    }
  }

  /** The chord type of a symbol: in a major key I, IV and V are major, ii,
      iii and vi minor and vii° diminished; in any other mode i and iv are
      minor, III, VI, VII and V major and ii° and vii° diminished. Other
      symbols default to major, respectively minor. */
  function DegreeQuality(majorMode: bool, symbol: string): Quality {
    if majorMode then
      if symbol == "I" || symbol == "IV" || symbol == "V" then MajorChord
      else if symbol == "ii" || symbol == "iii" || symbol == "vi" then MinorChord
      else if symbol == "vii\U{00B0}" then DiminishedChord
      else MajorChord
    else
      if symbol == "i" || symbol == "iv" then MinorChord
      else if symbol == "III" || symbol == "VI" || symbol == "VII" then MajorChord
      else if symbol == "ii\U{00B0}" || symbol == "vii\U{00B0}" then DiminishedChord
      else if symbol == "V" then MajorChord
      else MinorChord
  }

  /** The objects generateProgression returns. */
  datatype ProgressionChord = ProgressionChord(root: string, octave: int, chordType: Quality, notes: seq<int>)

  /** One entry of the map: the scale note of the symbol's degree, its name
      without the octave digits, and the chord of that name and type in the
      octave `Math.floor(rootNote / 12) - 1`. A degree past the end of a
      short scale reads `undefined`, named "undefinedNaN", which is no note. */
  function DegreeChord(symbol: string, scale: seq<int>, majorMode: bool): Result<ProgressionChord, TheoryError> {
    match RomanDegree(symbol)
    case None => Err(InvalidChordSymbol(symbol))
    case Some(index) =>
      if index >= |scale| then Err(InvalidRootNote("undefinedNaN"))
      else NoteChord(scale[index], DegreeQuality(majorMode, symbol))
  }

  /** The chord built on the scale note `rootNote`. */
  function NoteChord(rootNote: int, quality: Quality): Result<ProgressionChord, TheoryError> {
    var rootName := StripTrailingDigits(GetNoteName(rootNote));
    var chordOctave := rootNote / 12 - 1;
    match GenerateChord(NameRoot(rootName), quality.Name(), Some(chordOctave))
    case Err(e) => Err(e)
    case Ok(notes) => Ok(ProgressionChord(rootName, chordOctave, quality, notes))
  }

  /** The result of each symbol's entry of the map, in order. */
  function DegreeResults(symbols: seq<string>, scale: seq<int>, majorMode: bool): (rs: seq<Result<ProgressionChord, TheoryError>>)
    ensures |rs| == |symbols|
    ensures forall i :: 0 <= i < |symbols| ==> rs[i] == DegreeChord(symbols[i], scale, majorMode)
  {
    if |symbols| == 0 then []
    else
      var rest := DegreeResults(symbols[1..], scale, majorMode);
      assert forall i :: 1 <= i < |symbols| ==> symbols[1..][i - 1] == symbols[i];
      [DegreeChord(symbols[0], scale, majorMode)] + rest
  }

  /** `pattern.map(...)`: one chord per symbol, or the error of the first
      symbol that throws (see AllOk). */
  function ProgressionChords(symbols: seq<string>, scale: seq<int>, majorMode: bool): Result<seq<ProgressionChord>, TheoryError> {
    AllOk(DegreeResults(symbols, scale, majorMode))
  }

  /** `generateProgression(key, octave, progressionName, mode = 'major')`:
      the pattern first (a value of the wrong type throws before anything
      else), then the scale of the key in that mode, then one chord per
      symbol. */
  function GenerateProgression(key: Root, octave: Option<int>, progressionName: ProgressionName, mode: Option<string>): Result<seq<ProgressionChord>, TheoryError> {
    var m := mode.GetOr("major");
    match ProgressionPattern(progressionName, m)
    case Err(e) => Err(e)
    case Ok(pattern) =>
      match GenerateScale(key, m, octave)
      case Err(e) => Err(e)
      case Ok(scale) => ProgressionChords(pattern, scale, ToLower(m) == "major")
  }

  /** The chord of each predefined or custom progression follows the
      pattern symbol by symbol: the call succeeds exactly when every symbol
      does, gives one chord per symbol with the type of the mode/degree
      table, and a symbol missing from ROMAN_TO_DEGREE makes it throw. */
  lemma {:induction false} GenerateProgressionContract(key: Root, octave: Option<int>, name: ProgressionName, mode: Option<string>,
                                                      pattern: seq<string>, scale: seq<int>)
    requires ProgressionPattern(name, mode.GetOr("major")) == Ok(pattern)
    requires GenerateScale(key, mode.GetOr("major"), octave) == Ok(scale)
    ensures var r := GenerateProgression(key, octave, name, mode);
      var majorMode := ToLower(mode.GetOr("major")) == "major";
      (r.Ok? <==> forall i :: 0 <= i < |pattern| ==> DegreeChord(pattern[i], scale, majorMode).Ok?) &&
      (r.Ok? ==> (|r.value| == |pattern| &&
        forall i :: 0 <= i < |pattern| ==> r.value[i].chordType == DegreeQuality(majorMode, pattern[i]))) &&
      ((exists i :: 0 <= i < |pattern| && RomanDegree(pattern[i]).None?) ==> r.Err?)
  {
    var majorMode := ToLower(mode.GetOr("major")) == "major";
    var rs := DegreeResults(pattern, scale, majorMode);
    assert GenerateProgression(key, octave, name, mode) == AllOk(rs);
    var r := AllOk(rs);
    if r.Ok? {
      forall i | 0 <= i < |pattern|
        ensures r.value[i].chordType == DegreeQuality(majorMode, pattern[i])
      {
        assert rs[i] == Ok(r.value[i]);
        DegreeChordType(pattern[i], scale, majorMode);
      }
    }
    if exists i :: 0 <= i < |pattern| && RomanDegree(pattern[i]).None? {
      var i :| 0 <= i < |pattern| && RomanDegree(pattern[i]).None?;
      assert rs[i].Err?;
    }
  }

  /** A chord of a progression carries the type the table gives its symbol. */
  lemma {:induction false} DegreeChordType(symbol: string, scale: seq<int>, majorMode: bool)
    ensures DegreeChord(symbol, scale, majorMode).Ok? ==>
      DegreeChord(symbol, scale, majorMode).value.chordType == DegreeQuality(majorMode, symbol)
  {
  }

  /** The name getNoteName gives a non-negative note, without its octave
      digits: the pitch class, followed by the '-' of the octave "-1" for the
      notes 0 to 11. */
  lemma {:induction false} StrippedNoteName(midiNote: int)
    requires midiNote >= 0
    ensures StripTrailingDigits(GetNoteName(midiNote))
      == NOTE_NAMES[midiNote % 12] + (if midiNote < 12 then "-" else "")
  {
    var name := NOTE_NAMES[midiNote % 12];
    NamesHaveNoteShape(midiNote % 12);
    assert !IsDigit(name[|name| - 1]);
    if midiNote < 12 {
      assert GetNoteName(midiNote) == (name + "-") + NatToString(1);
      StripAppendedNumber(name + "-", 1);
    } else {
      assert GetNoteName(midiNote) == name + NatToString(midiNote / 12 - 1);
      StripAppendedNumber(name, midiNote / 12 - 1);
    }
  }

  /** A note followed by '-' reads as that note in the given octave. */
  lemma {:induction false} ReadNoteRootDash(name: string, octave: int)
    requires NoteShape(name)
    ensures ReadRoot(NameRoot(name + "-"), octave) == (NameRoot(name), octave)
  {
    var s := name + "-";
    var n := |name|;
    assert s[n] == '-';
    assert DigitRunEnd(s, n) == n;
    assert s[0..n] == name;
    assert n == (if 1 < |s| && IsAccidental(s[1]) then 2 else 1);
    assert RootMatchAt(s, 0) == (name, "");
  }

  lemma {:induction false} GenerateOfDashName(pattern: seq<int>, unknown: TheoryError, name: string, octave: int)
    requires NoteIndex(name) >= 0
    ensures Generate(Some(pattern), unknown, NameRoot(name + "-"), Some(octave)) == Ok(Offset(NoteIndex(name) + 12 * octave, pattern))
  {
    NoteShapeOfIndex(name);
    ReadNoteRootDash(name, octave);
  }

  /** The three types a progression asks for are entries of CHORDS. */
  lemma {:induction false} QualityPattern(q: Quality)
    ensures ChordPattern(ToLower(q.Name())) == Some(q.Intervals())
  {
    LowerOfLowerCase(q.Name());
  }

  /** `toLowerCase()` keeps a string without capitals. */
  lemma {:induction false} LowerOfLowerCase(s: string)
    requires forall i :: 0 <= i < |s| ==> !('A' <= s[i] <= 'Z')
    ensures ToLower(s) == s
  {
    assert forall i :: 0 <= i < |s| ==> ToLower(s)[i] == s[i];
  }

  /** The chord on a non-negative scale note `m`: named by the pitch class
      of `m` (with a trailing '-' below 12), in octave `m / 12 - 1`, and built
      on `m - 12`, one octave below the scale note, since generateChord
      counts `12 * octave` where getNoteName counts `12 * (octave + 1)`. */
  lemma {:induction false} NoteChordBelow(m: int, q: Quality)
    requires m >= 0
    ensures NoteChord(m, q) ==
      Ok(ProgressionChord(NOTE_NAMES[m % 12] + (if m < 12 then "-" else ""), m / 12 - 1, q, Offset(m - 12, q.Intervals())))
  {
    var k, o := m % 12, m / 12 - 1;
    var name := NOTE_NAMES[k];
    var rootName := StripTrailingDigits(GetNoteName(m));
    var pattern := q.Intervals();
    StrippedNoteName(m);
    NoteIndexOfNames();
    assert NoteIndex(name) == k;
    assert k + 12 * o == m - 12;
    if m < 12 {
      GenerateOfDashName(pattern, UnknownChordType(q.Name()), name, o);
      assert rootName == name + "-";
    } else {
      GenerateOfName(pattern, UnknownChordType(q.Name()), name, "", Some(o), o);
      assert rootName == name + "";
    }
    var notes := Generate(Some(pattern), UnknownChordType(q.Name()), NameRoot(rootName), Some(o));
    assert notes == Ok(Offset(m - 12, pattern));
    QualityPattern(q);
    assert GenerateChord(NameRoot(rootName), q.Name(), Some(o)) == notes;
    NoteChordOf(m, q, rootName, Offset(m - 12, pattern));
  }

  lemma {:induction false} NoteChordOf(m: int, q: Quality, rootName: string, notes: seq<int>)
    requires StripTrailingDigits(GetNoteName(m)) == rootName
    requires GenerateChord(NameRoot(rootName), q.Name(), Some(m / 12 - 1)) == Ok(notes)
    ensures NoteChord(m, q) == Ok(ProgressionChord(rootName, m / 12 - 1, q, notes))
  {
  }

  /** Every symbol of ROMAN_TO_DEGREE whose degree falls in the scale, on a
      non-negative scale note, gives that chord. */
  lemma {:induction false} DegreeChordOfNote(symbol: string, scale: seq<int>, majorMode: bool, index: int)
    requires RomanDegree(symbol) == Some(index) && index < |scale| && scale[index] >= 0
    ensures DegreeChord(symbol, scale, majorMode) == NoteChord(scale[index], DegreeQuality(majorMode, symbol))
    ensures DegreeChord(symbol, scale, majorMode).Ok?
  {
    NoteChordBelow(scale[index], DegreeQuality(majorMode, symbol));
  }

  /** When every symbol names a degree and the scale has seven non-negative
      notes (a major or minor scale on a named root), the progression
      succeeds, and its i-th chord is the chord on the scale note of the
      i-th symbol's degree, with the type of the table. */
  lemma {:induction false} GenerateProgressionOfDegrees(key: Root, octave: Option<int>, name: ProgressionName, mode: Option<string>,
                                                       pattern: seq<string>, scale: seq<int>)
    requires ProgressionPattern(name, mode.GetOr("major")) == Ok(pattern)
    requires GenerateScale(key, mode.GetOr("major"), octave) == Ok(scale)
    requires |scale| == 7 && forall i :: 0 <= i < 7 ==> scale[i] >= 0
    requires forall i :: 0 <= i < |pattern| ==> RomanDegree(pattern[i]).Some?
    ensures var r := GenerateProgression(key, octave, name, mode);
      var majorMode := ToLower(mode.GetOr("major")) == "major";
      r.Ok? && |r.value| == |pattern| &&
      forall i :: 0 <= i < |pattern| ==>
        Ok(r.value[i]) == NoteChord(scale[RomanDegree(pattern[i]).value], DegreeQuality(majorMode, pattern[i]))
  {
    var majorMode := ToLower(mode.GetOr("major")) == "major";
    var rs := DegreeResults(pattern, scale, majorMode);
    assert GenerateProgression(key, octave, name, mode) == AllOk(rs);
    forall i | 0 <= i < |pattern|
      ensures rs[i] == NoteChord(scale[RomanDegree(pattern[i]).value], DegreeQuality(majorMode, pattern[i]))
      ensures rs[i].Ok?
    {
      DegreeChordOfNote(pattern[i], scale, majorMode, RomanDegree(pattern[i]).value);
    }
  }

  /** Every predefined progression of either mode uses only symbols of
      ROMAN_TO_DEGREE. */
  lemma {:induction false} PredefinedSymbolsHaveDegrees(mode: string, name: string, pattern: seq<string>)
    requires Predefined(mode, name) == Some(pattern)
    ensures forall i :: 0 <= i < |pattern| ==> RomanDegree(pattern[i]).Some?
  {
    if mode == "major" {
      if name == "1-4-5" {
      } else if name == "1-5-6-4" {
      } else if name == "1-6-4-5" {
      } else if name == "2-5-1" {
      } else {
        assert pattern == ["I", "IV", "vi", "V"];
      }
    } else {
      if name == "1-4-5" {
      } else if name == "1-6-4-5" {
      } else if name == "1-4-6-5" {
      } else if name == "2-5-1" {
        assert pattern == ["ii\U{00B0}", "V", "i"];
      } else {
        assert pattern == ["i", "VI", "III", "VII"];
      }
    }
  }

  // ---------------------------------------------------------------------
  // getKeySignature

  /** The letters `[A-G]` matches under the `i` flag. */
  predicate IsKeyLetter(c: char) {
    'A' <= c <= 'G' || 'a' <= c <= 'g'
  }

  /** `[#b]` under the `i` flag. */
  predicate IsKeyAccidental(c: char) {
    c == '#' || c == 'b' || c == 'B'
  }

  /** `\s`: the ECMAScript white space and line terminator characters. */
  predicate IsSpace(c: char) {
    c == '\t' || c == '\n' || c == '\U{000B}' || c == '\U{000C}' || c == '\r' || c == ' '
    || c == '\U{00A0}' || c == '\U{1680}' || ('\U{2000}' <= c <= '\U{200A}') || c == '\U{2028}'
    || c == '\U{2029}' || c == '\U{202F}' || c == '\U{205F}' || c == '\U{3000}' || c == '\U{FEFF}'
  }

  /** The end of the greedy `\s*` that starts at `p`. */
  function SpaceRunEnd(s: string, p: nat): (e: nat)
    requires p <= |s|
    ensures p <= e <= |s| && (forall i :: p <= i < e ==> IsSpace(s[i])) && (e < |s| ==> !IsSpace(s[e]))
    decreases |s| - p
  {
    if p < |s| && IsSpace(s[p]) then SpaceRunEnd(s, p + 1) else p
  }

  /** The lower-case word `w` is written at `p`, in any mix of cases. */
  predicate FoldedAt(s: string, p: nat, w: string) {
    p + |w| <= |s| && forall i :: 0 <= i < |w| ==> LowerChar(s[p + i]) == w[i]
  }

  /** The text of `(major|minor|maj|min|M|m)?` at `p` under the `i` flag:
      the first alternative that matches, or nothing. Every alternative
      begins with an m, so a word is there exactly when an m or M is. */
  function ModeWordAt(s: string, p: nat): (w: string)
    requires p <= |s|
    ensures p + |w| <= |s| && w == s[p..p + |w|]
    ensures |w| > 0 <==> p < |s| && LowerChar(s[p]) == 'm'
    ensures |w| > 0 ==> LowerChar(w[0]) == 'm'
  {
    if p < |s| && LowerChar(s[p]) == 'm' then
      if FoldedAt(s, p, "major") || FoldedAt(s, p, "minor") then s[p..p + 5]
      else if FoldedAt(s, p, "maj") || FoldedAt(s, p, "min") then s[p..p + 3]
      else s[p..p + 1]
    else ""
  }

  /** The two groups of the key pattern matched at a key letter: the
      letter with its optional accidental, and the optional mode word
      after any white space. */
  function KeyMatchAt(s: string, i: nat): (m: (string, string))
    requires i < |s| && IsKeyLetter(s[i])
    ensures 1 <= |m.0| <= 2 && m.0[0] == s[i] && (|m.0| == 2 ==> IsKeyAccidental(m.0[1]))
  {
    var nameEnd := if i + 1 < |s| && IsKeyAccidental(s[i + 1]) then i + 2 else i + 1;
    (s[i..nameEnd], ModeWordAt(s, SpaceRunEnd(s, nameEnd)))
  }

  /** `key.match(keyRegex)`: the whole pattern after the letter is
      optional, so it matches at the leftmost key letter, if any. */
  function FirstKeyMatch(s: string, i: nat): (m: Option<(string, string)>)
    ensures m.None? <==> forall j :: i <= j < |s| ==> !IsKeyLetter(s[j])
    ensures m.Some? ==> 1 <= |m.value.0| <= 2 && IsKeyLetter(m.value.0[0])
    decreases |s| - i
  {
    if i >= |s| then None
    else if IsKeyLetter(s[i]) then Some(KeyMatchAt(s, i))
    else FirstKeyMatch(s, i + 1)
  }

  datatype Mode = Major | Minor

  /** The mode as written: an absent word is major, and a word whose lower
      case starts with 'm' is minor. */
  function ModeAsWritten(word: string): Mode {
    if |word| > 0 && LowerChar(word[0]) == 'm' then Minor else Major
  }

  /** `sharpKeys[root]`. */
  function SharpKey(root: string): (n: Option<int>)
    ensures n.Some? ==> 0 <= n.value <= 7
  {
    if root == "C" then Some(0) else if root == "G" then Some(1)
    else if root == "D" then Some(2) else if root == "A" then Some(3)
    else if root == "E" then Some(4) else if root == "B" then Some(5)
    else if root == "F#" then Some(6) else if root == "C#" then Some(7)
    else None
  }

  /** `flatKeys[root]`. */
  function FlatKey(root: string): (n: Option<int>)
    ensures n.Some? ==> 0 <= n.value <= 7
  {
    if root == "C" then Some(0) else if root == "F" then Some(1)
    else if root == "Bb" then Some(2) else if root == "Eb" then Some(3)
    else if root == "Ab" then Some(4) else if root == "Db" then Some(5)
    else if root == "Gb" then Some(6) else if root == "Cb" then Some(7)
    else None
  }

  /** The object getKeySignature returns. */
  datatype KeySignature = KeySignature(root: string, mode: Mode, sharps: int, flats: int, accidentals: string)

  /** `${sharps} sharp(s)` when there are sharps, else `${flats} flat(s)`. */
  function AccidentalsText(sharps: nat, flats: nat): string {
    if sharps > 0 then NatToString(sharps) + " sharp(s)" else NatToString(flats) + " flat(s)"
  }

  /** The sharps and flats of the major key `adjusted`: the sharps table
      first, then the flats table, else none; a key has sharps or flats,
      never both. */
  function Counts(adjusted: string): (c: (int, int))
    ensures 0 <= c.0 <= 7 && 0 <= c.1 <= 7 && (c.0 == 0 || c.1 == 0)
    ensures SharpKey(adjusted).Some? ==> c == (SharpKey(adjusted).value, 0)
    ensures SharpKey(adjusted).None? && FlatKey(adjusted).Some? ==> c == (0, FlatKey(adjusted).value)
    ensures SharpKey(adjusted).None? && FlatKey(adjusted).None? ==> c == (0, 0)
  {
    match SharpKey(adjusted)
    case Some(n) => (n, 0)
    case None =>
      match FlatKey(adjusted)
      case Some(n) => (0, n)
      case None => (0, 0)
  }

  /** The returned object for a root read in a mode whose major table
      entry is `adjusted`. */
  function Signature(root: string, mode: Mode, adjusted: string): (k: KeySignature)
    ensures k.root == root && k.mode == mode
    ensures (k.sharps, k.flats) == Counts(adjusted)
    ensures k.accidentals == AccidentalsText(k.sharps, k.flats)
  {
    var (sharps, flats) := Counts(adjusted);
    KeySignature(root, mode, sharps, flats, AccidentalsText(sharps, flats))
  }

  /** The relative major of a minor key as written: three semitones up in
      NOTE_NAMES, which spells it with a sharp; a root missing from
      NOTE_NAMES (a flat, a lower-case letter) is kept. */
  function RelativeMajorAsWritten(root: string): string {
    var k := NoteIndex(root);
    if k != -1 then NOTE_NAMES[(k + 3) % 12] else root
  }

  /** `getKeySignature(key)`: a key without a key letter throws. */
  function GetKeySignature(key: string): (r: Result<KeySignature, TheoryError>)
    ensures r.Err? <==> forall i :: 0 <= i < |key| ==> !IsKeyLetter(key[i])
    ensures r.Err? ==> r.error == InvalidKeyFormat(key)
  {
    match FirstKeyMatch(key, 0)
    case None => Err(InvalidKeyFormat(key))
    case Some((root, word)) =>
      var mode := ModeAsWritten(word);
      Ok(Signature(root, mode, if mode == Minor then RelativeMajorAsWritten(root) else root))
  }

  /** The mode is minor exactly when a mode word was matched, whichever
      word it is: "major", "maj" and "M" read as minor too. */
  lemma {:induction false} ExplicitModeReadsAsMinor(key: string, root: string, word: string)
    requires FirstKeyMatch(key, 0) == Some((root, word))
    ensures GetKeySignature(key).Ok?
    ensures GetKeySignature(key).value.root == root
    ensures GetKeySignature(key).value.mode == Minor <==> |word| > 0
  {
    assert key[0..] == key;
    MatchHasWord(key, 0, root, word);
  }

  /** The mode word of a match is empty or starts with m or M. */
  lemma {:induction false} MatchHasWord(s: string, i: nat, root: string, word: string)
    requires FirstKeyMatch(s, i) == Some((root, word))
    ensures |word| > 0 ==> LowerChar(word[0]) == 'm'
    decreases |s| - i
  {
    if i < |s| && !IsKeyLetter(s[i]) {
      MatchHasWord(s, i + 1, root, word);
    }
  }

  /** A lower-case root, which the `i` flag lets through, is in neither
      table, and neither is its relative major: no sharps and no flats. */
  lemma {:induction false} LowercaseRootHasNoAccidentals(key: string, root: string, word: string)
    requires FirstKeyMatch(key, 0) == Some((root, word))
    requires 'a' <= root[0] <= 'g'
    ensures GetKeySignature(key) == Ok(KeySignature(root, ModeAsWritten(word), 0, 0, "0 flat(s)"))
  {
    var mode := ModeAsWritten(word);
    assert NoteIndex(root) == -1;
    assert RelativeMajorAsWritten(root) == root;
    assert SharpKey(root).None? && FlatKey(root).None?;
    assert NatToString(0) + " flat(s)" == "0 flat(s)";
    assert Signature(root, mode, root) == KeySignature(root, mode, 0, 0, "0 flat(s)");
  }

  /** "G major" reads as G minor, whose relative major is spelled "A#",
      an entry of neither table: no sharps, no flats. */
  lemma {:induction false} GMajorReadsAsMinor()
    ensures GetKeySignature("G major") == Ok(KeySignature("G", Minor, 0, 0, "0 flat(s)"))
  {
    GMajorMatch();
    KeySignatureOfMatch("G major", "G", "major");
    assert ModeAsWritten("major") == Minor;
    assert RelativeMajorAsWritten("G") == "A#";
    GMinorAsWritten();
  }

  lemma {:induction false} KeySignatureOfMatch(key: string, root: string, word: string)
    requires FirstKeyMatch(key, 0) == Some((root, word))
    ensures var mode := ModeAsWritten(word);
      GetKeySignature(key) == Ok(Signature(root, mode, if mode == Minor then RelativeMajorAsWritten(root) else root))
  {
  }

  lemma {:induction false} GMinorAsWritten()
    ensures Signature("G", Minor, "A#") == KeySignature("G", Minor, 0, 0, "0 flat(s)")
  {
    assert SharpKey("A#").None?;
    assert FlatKey("A#").None?;
    assert NatToString(0) + " flat(s)" == "0 flat(s)";
  }

  lemma {:induction false} GMajorMatch()
    ensures FirstKeyMatch("G major", 0) == Some(("G", "major"))
  {
    var s := "G major";
    assert !IsKeyAccidental(s[1]) && s[0..1] == "G";
    assert SpaceRunEnd(s, 1) == 2;
    assert s[2..7] == "major";
    assert FoldedAt(s, 2, "major");
    assert ModeWordAt(s, 2) == "major";
    assert KeyMatchAt(s, 0) == ("G", "major");
  }

  /** The minor keys whose relative major NOTE_NAMES spells with a sharp
      where the flats table spells it with a flat (C, F and G minor, whose
      relative majors are E flat, A flat and B flat) find no entry: they get
      no accidentals, like A minor. */
  lemma {:induction false} FlatMinorKeysHaveNoAccidentals(k: int)
    requires k == 0 || k == 5 || k == 7
    ensures var sig := Signature(NOTE_NAMES[k], Minor, RelativeMajorAsWritten(NOTE_NAMES[k]));
      sig.sharps == 0 && sig.flats == 0
  {
    NoteIndexOfNames();
  }

  // The corrected reading of the key.

  /** The mode the words mean: "minor", "min" and "m" are minor, "major",
      "maj" and "M" major, and no word is major. */
  function ModeIntended(word: string): Mode {
    if word == "m" || (|word| >= 2 && LowerChar(word[1]) == 'i') then Minor else Major
  }

  /** For a matched mode word, ModeIntended is minor exactly when the word
      is "min" (possibly as the start of "minor"), in any case, or a
      lower-case "m". */
  lemma {:induction false} ModeIntendedNamesTheMode(s: string, p: nat)
    requires p <= |s|
    ensures var w := ModeWordAt(s, p);
      (ModeIntended(w) == Minor <==> FoldedAt(s, p, "min") || w == "m")
  {
    var w := ModeWordAt(s, p);
    if p < |s| && LowerChar(s[p]) == 'm' {
      if FoldedAt(s, p, "major") || FoldedAt(s, p, "maj") {
        assert "maj"[1] == "major"[1] == 'a';
        assert LowerChar(s[p + 1]) == 'a';
        assert w[1] == s[p + 1];
        assert "min"[1] == 'i';
        NotFoldedAt(s, p, "min", 1);
      } else if FoldedAt(s, p, "minor") || FoldedAt(s, p, "min") {
        assert "min"[1] == "minor"[1] == 'i';
        assert LowerChar(s[p + 1]) == 'i';
        assert |w| >= 3 && w[1] == s[p + 1];
        assert FoldedAt(s, p, "min") by {
          if FoldedAt(s, p, "minor") {
            assert forall i :: 0 <= i < 3 ==> "min"[i] == "minor"[i];
          }
        }
      } else {
        assert |w| == 1;
      }
    } else {
      assert w == "";
      NotFoldedAt(s, p, "min", 0);
    }
  }

  /** A word is not written where one of its letters is not. */
  lemma {:induction false} NotFoldedAt(s: string, p: nat, w: string, j: nat)
    requires j < |w| && !(p + j < |s| && LowerChar(s[p + j]) == w[j])
    ensures !FoldedAt(s, p, w)
  {
  }

  /** NOTE_NAMES with the black keys spelled as flats. */
  const FLAT_NAMES: seq<string> := ["C", "Db", "D", "Eb", "E", "F", "Gb", "G", "Ab", "A", "Bb", "B"]

  /** The pitch class of a root spelled with a sharp or with a flat (a
      flat letter is one semitone below the letter), or -1. */
  function SpelledIndex(root: string): (k: int)
    ensures -1 <= k < 12
  {
    var k := NoteIndex(root);
    if k >= 0 then k
    else if |root| == 2 && root[1] == 'b' && LetterIndex(root[0]) >= 0 then (LetterIndex(root[0]) + 11) % 12
    else -1
  }

  /** The relative major three semitones up, spelled as the table that
      holds it spells it: the sharp name when the sharps table has it, else
      the flat name. */
  function RelativeMajorIntended(root: string): string {
    var k := SpelledIndex(root);
    if k == -1 then root else MajorSpelling((k + 3) % 12)
  }

  /** The name of the major key on pitch class `r` as the tables spell it. */
  function MajorSpelling(r: int): string
    requires 0 <= r < 12
  {
    if SharpKey(NOTE_NAMES[r]).Some? then NOTE_NAMES[r] else FLAT_NAMES[r]
  }

  /** getKeySignature with the mode read from the word and the relative
      major spelled as its table spells it. */
  function GetKeySignatureIntended(key: string): (r: Result<KeySignature, TheoryError>)
    ensures r.Err? <==> forall i :: 0 <= i < |key| ==> !IsKeyLetter(key[i])
  {
    match FirstKeyMatch(key, 0)
    case None => Err(InvalidKeyFormat(key))
    case Some((root, word)) =>
      var mode := ModeIntended(word);
      Ok(Signature(root, mode, if mode == Minor then RelativeMajorIntended(root) else root))
  }

  /** Corrected, "G major" is G major, with one sharp. */
  lemma {:induction false} GMajorHasOneSharp()
    ensures GetKeySignatureIntended("G major") == Ok(KeySignature("G", Major, 1, 0, "1 sharp(s)"))
  {
    GMajorMatch();
    assert ModeIntended("major") == Major;
    assert GetKeySignatureIntended("G major") == Ok(Signature("G", Major, "G"));
    GMajorIntended();
  }

  lemma {:induction false} GMajorIntended()
    ensures Signature("G", Major, "G") == KeySignature("G", Major, 1, 0, "1 sharp(s)")
  {
    assert SharpKey("G") == Some(1);
    assert NatToString(1) + " sharp(s)" == "1 sharp(s)";
  }

  /** Corrected, every minor key on a NOTE_NAMES root has the signature of
      its relative major, which has accidentals unless the key is A minor
      (relative to C major). */
  lemma {:induction false} MinorKeysHaveAccidentals(k: int)
    requires 0 <= k < 12
    ensures var sig := Signature(NOTE_NAMES[k], Minor, RelativeMajorIntended(NOTE_NAMES[k]));
      sig.sharps + sig.flats > 0 <==> k != 9
  {
    var r := (k + 3) % 12;
    RelativeOfName(k);
    MajorKeysHaveAccidentals(r);
    ThreeUp(k);
  }

  lemma {:induction false} ThreeUp(k: int)
    requires 0 <= k < 12
    ensures (k + 3) % 12 == 0 <==> k == 9
  {
    if k < 9 {
      assert (k + 3) % 12 == k + 3;
    } else {
      assert (k + 3) % 12 == k - 9;
    }
  }

  lemma {:induction false} RelativeOfName(k: int)
    requires 0 <= k < 12
    ensures RelativeMajorIntended(NOTE_NAMES[k]) == MajorSpelling((k + 3) % 12)
  {
    NoteIndexOfNames();
    assert SpelledIndex(NOTE_NAMES[k]) == k;
  }

  /** The major key on each pitch class, spelled as its table spells it,
      has accidentals unless it is C major. */
  lemma {:induction false} MajorKeysHaveAccidentals(r: int)
    requires 0 <= r < 12
    ensures Counts(MajorSpelling(r)).0 + Counts(MajorSpelling(r)).1 > 0 <==> r != 0
  {
  }
}
