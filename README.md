# MIDI song tool: music theory, pattern generators and MIDI containers in Dafny

This project models the computational core of a JavaScript MIDI song tool.
The tool names notes and turns them into MIDI numbers. It builds scales,
chords, Roman-numeral progressions and key signatures. Its pattern
generators write chord, bass, drum, arpeggio and rhythm parts. It also holds
notes in sequences and sessions with undo and redo, runs a client transport
clock, and prepares sequences for MIDI export.

The repository has several near-duplicate implementations that disagree on
conventions. For example, "C4" is 48 in one file and 60 in another. Each
source file is therefore its own Dafny module, and none are unified:

| module | source |
|---|---|
| `RootTheory`, `RootSequence`, `RootPatterns`, `RootSession` | midi-framework.js |
| `CoreFrameworkTheory`, `CoreFrameworkSequence`, `CoreFrameworkPatterns`, `CoreFrameworkOperations`, `CoreFrameworkSession` | src/core/midi-framework.js |
| `CoreMusicTheory` | src/core/musicTheory.js |
| `CoreChordGenerator`, `CoreBasslineGenerator`, `CoreDrumPatternGenerator` | src/core/patternGenerator.js |
| `CoreMidiSequence` | src/core/midiSequence.js |
| `ServerSessionService` | src/server/services/sessionService.js |
| `TransportService` | src/client/services/transportService.js |
| `FixedPatterns` | fixed-patterns.js |
| `ServerSequence` | src/server/models/sequence.js |
| `ServerTheoryApi` | src/server/api/musicTheory.js |
| `ServerTheoryRoutes` | src/server/routes/musicTheoryRoutes.js |
| `RootTheoryRoutes` | routes/musicTheoryRoutes.js |
| `CoreMidiExport` | src/core/midiExport.js |
| `MidiExporter` | midi-exporter.js |

There are also four shared modules:

- `JsSupport` holds the JavaScript behaviour the source relies on:
  - `undefined`/`null` as `Option`, and a thrown error as `Result`;
  - the truncating `%` and `Math.round`;
  - falsy-value defaults (`x || d`);
  - integers formatted as decimal strings and read back with `parseInt`;
  - the order `Object.keys` gives integer-like keys.
- `Sorting` is the stable sort that `Array.prototype.sort` performs with the source's comparators.
- `NoteNames` is the sharp-spelled twelve-name table that several files declare identically.
- `NoteMap` is the sharp-and-flat spelling table shared by the two route and API files.

How the source's forms are modelled:

- Pure code (table lookups, arithmetic, `map`) becomes functions. A
  `throw` becomes an `Err`, and a `null` result becomes `None`.
- Code that loops with a running time and pushes notes becomes a method with
  a `while` loop. Each such method is proved equal to a function that places
  every note directly. Lemmas about that function state the note counts,
  times, pitches, channels and velocities.
- Objects whose methods change their fields become classes:
  - the `MidiSequence` classes, the two `Session` classes, the
    `SessionService` registry and the `Transport`;
  - the stateful ones are specified against a value-level state and a step
    function, and their methods ensure
    `(State(), r) == Step(old(State()), ...)` under a preserved invariant;
  - lemmas about the step functions state what each operation promises,
    for example that undo after `addNotes` restores the notes.
- Beat times and durations are exact `real`s. Pitches, velocities and ticks
  are `int`s.
- Randomness, clocks and generated ids are parameters.
- JavaScript default arguments are `Option` parameters: `None` stands for an
  omitted (undefined) argument and the member's contract uses the source's
  default in its place.

### How the table names members

Each row names the member whose contract states the property. A pure
operation is a function without an `ensures` of its own, so that its
contract does not repeat its body; it is specified by the lemmas beside it,
and the table lists those lemmas. For example:

- `CoreMusicTheory.GenerateScale` and `CoreMusicTheory.GenerateChord`:
  `GenerateScaleContract`, `GenerateChordContract`, `ScaleOfPlainRoot`,
  `ChordOfPlainRoot` and `ScaleOfNegativeOctave`.
- `CoreMusicTheory.NoteToMidi`, `MidiToNote` and `ParseNoteString`:
  `ParseNoteStringContract`, `NamedNoteToMidi`, `SpelledNoteToMidi`,
  `MidiNoteRoundTrip`, `NoteNameRoundTrip` and `FlatsNormalizeToSharps`.
- `RootTheory.GetNoteNumber`, `GenerateScale`, `GenerateChord` and
  `GenerateProgression`: `GetNoteNumberContract`, `GenerateScaleContract`,
  `GenerateChordContract`, `GenerateProgressionErrors` and
  `GenerateProgressionChords`.
- `ServerTheoryApi.GenerateScale`, `GenerateChord` and `Analyze`:
  `GenerateScaleClimbs`, `GenerateScaleUnknown`, `GenerateChordClimbs`,
  `GenerateChordUnknown`, `AnalyzeIdentifies`, `AnalyzeNamesSortedNotes`,
  `AnalyzeRejects` and `AnalyzeUnknown`.
- `ServerTheoryRoutes.ScaleRoute`, `ChordRoute` and `KeySignatureRoute`:
  `ScaleRouteContract`, `ChordRouteContract` and `KeySignatureRouteMode`.
- `CoreMidiExport.ConvertDurationToTicks`: `NamedDurations` and
  `DurationTicksDigits`; `MidiExporter.DurationToTicks`:
  `DurationToTicksContract` and `DurationMonotone`.
- `CoreChordGenerator.GenerateChord` and `GenerateProgression`:
  `GenerateChordErrors`, `GenerateChordOfRoot`, `ChordOnIsGenerateChord`,
  `GenerateProgressionContract`, `GenerateProgressionFails`,
  `GenerateProgressionOfChords` and `DefaultProgression`.
- `CoreMidiSequence.Collisions`: `CollisionsAreThePairs`.
- `ServerTheoryRoutes.AnalyzeIntended` (the corrected half of a finding):
  `IntendedNamesInversions` and `AnalyzeIntendedExtends`.
- The step functions of the session classes (`UndoStep`, `RedoStep`,
  `CreateSequenceStep` and the others): the method rows, whose `ensures`
  tie each method to its step, and the lemmas about the steps next to them.

## Model

| member | source | states |
|---|---|---|
| NoteNames.NoteIndex | src/core/musicTheory.js:158 | `NOTE_NAMES.indexOf(name)` is -1 or an index of the twelve-name table |
| NoteNames.NoteIndexIsIndexOf | src/core/musicTheory.js:158 | a found index holds the name, -1 means the name is not in the table, and every table name is found at its own position |
| NoteMap.NoteMapSemitone | routes/musicTheoryRoutes.js:32-36 | a name the table knows is a letter with at most one '#' or 'b', and maps to a semitone in 0..11 |
| NoteMap.NoteMapSemitoneIsTable | src/server/api/musicTheory.js:7-11 | the lookup finds exactly the rows of the table, both spellings |
| NoteMap.FlatRows | src/server/api/musicTheory.js:7-11 | every name the table knows beyond the sharp names is a flat row of the table |
| NoteMap.SharpNamesInNoteMap | routes/musicTheoryRoutes.js:32-36 | each of the twelve sharp names is in the table at its own index |
| Sorting.Reverse | src/core/midi-framework.js:690-692 | element i of the reversal is element n-1-i of the input |
| Sorting.ReverseMultiset | src/core/midi-framework.js:690-692 | reversal is a permutation |
| Sorting.SortAsc | src/server/api/musicTheory.js:178 | `sort((a, b) => a - b)` returns an ascending permutation of the input |
| Sorting.SortDesc | src/core/midi-framework.js:687 | `sort((a, b) => b - a)` returns a descending permutation of the input |
| Sorting.AscendingUnique | src/server/api/musicTheory.js:178 | two ascending permutations of one list are equal, so the sorted result is determined by the input's elements |
| Sorting.SortAscSorted | src/server/routes/musicTheoryRoutes.js:138 | sorting an ascending list leaves it unchanged |
| Sorting.InsertBy | midi-exporter.js:56 | inserting into a list sorted by key keeps it sorted, adds exactly that element, and puts it first only when its key is not above the first's |
| Sorting.SortBy | midi-exporter.js:56 | `sort((a, b) => a.startTime - b.startTime)` returns a permutation ordered by start time |
| Sorting.InsertByStable | midi-exporter.js:56 | an inserted element lands after every element with the same key: filtered to any one key, the result is the old list followed by the new element |
| Sorting.SortByStable | midi-exporter.js:56 | the sort is stable, as `Array.prototype.sort` is: filtered to any one key, the sorted list equals the input in its original order |
| JsSupport.JsRem | midi-framework.js:21 | JavaScript's `%` by a positive number: the usual remainder for a non-negative dividend, a remainder in (-n, 0] for a negative one |
| JsSupport.JsRound | src/core/midiExport.js:74 | `Math.round(x)` is the integer r with r - 0.5 <= x < r + 0.5 |
| JsSupport.RoundOnGrid | src/core/midi-framework.js:456 | rounding a multiple of the grid divided by the grid gives back that multiple |
| JsSupport.Clamp | midi-framework.js:160 | `Math.min(hi, Math.max(lo, x))` lies in [lo, hi] and is x when x already does |
| JsSupport.IntToString | src/core/midiExport.js:91 | the decimal text of an integer is non-empty, all digits when the integer is not negative, and '-' then digits otherwise |
| JsSupport.DigitsOfNatToString | src/core/musicTheory.js:121 | `parseInt` of the decimal text of n is n |
| JsSupport.StripAppendedNumber | src/core/musicTheory.js:121-122 | removing the trailing digits of a name followed by a number gives back the name |
| JsSupport.RemoveFirstDigitAfter | src/core/musicTheory.js:375 | `replace(/\d/, '')` of digit-free text followed by digits removes the first of those digits |
| JsSupport.ToLower | src/core/midi-framework.js:83 | the model of `toLowerCase()` maps each ASCII capital A to Z to its small letter and keeps every other character, so the length is kept (ASCII only, see "## Left out") |
| JsSupport.Split | src/core/midi-framework.js:184 | `split(sep)` gives at least one part, no part contains the separator, and text without it is its own single part |
| JsSupport.JoinSplit | src/core/midi-framework.js:184 | joining the parts with the separator gives back the text |
| JsSupport.IndexOf | src/core/patternGenerator.js:41 | `indexOf` is the first position holding the value, or -1 exactly when it is absent |
| JsSupport.AllOk | src/core/midi-framework.js:186-246 | a map whose callback may throw: all results when none throws, else the error of the first that does |
| JsSupport.StringOr | src/core/midi-framework.js:377 | `x \|\| d` on strings: x when it is present and non-empty, else d |
| JsSupport.IntOr | src/core/midi-framework.js:381 | `x \|\| d` on numbers: x when it is present and non-zero, else d |
| JsSupport.Without | midi-framework.js:729 | the keys left after `delete`: exactly the other keys |
| JsSupport.WithoutNoDuplicates | midi-framework.js:729 | deleting a key keeps the key list free of repeats |
| JsSupport.Dedup | src/core/midi-framework.js:859 | the distinct channels in their first-seen order: no repeats, no more entries than the input |
| JsSupport.DedupMembers | src/core/midi-framework.js:859 | the distinct list has exactly the input's elements |
| JsSupport.FilterRangeContract | src/core/musicTheory.js:224 | `filter(n => n >= lo && n <= hi)`: kept values are in range, exactly the in-range ones are kept, and an all-in-range list is kept whole |
| JsSupport.FilterRangeAscends | src/core/musicTheory.js:224 | the range filter keeps the order of what it keeps: a strictly ascending list stays strictly ascending |
| JsSupport.StepsAscend | midi-framework.js:27-34 | a table built of positive steps, like SCALES and CHORDS, strictly increases |
| JsSupport.Offset | src/core/musicTheory.js:221 | `intervals.map(i => root + i)` adds the root to each element |
| JsSupport.CycleIsRemainder | src/core/midi-framework.js:519-520 | the running index into a repeating pattern reads element j % n |
| JsSupport.EntryKeysPermutation | src/core/midi-framework.js:859 | `Object.values` of an integer-keyed object visits every key exactly once |
| JsSupport.IndexKeysAll | midi-exporter.js:41 | when every key is an array index, all keys are visited in the ascending part |
| JsSupport.EntryKeysAscending | midi-exporter.js:41 | for the MIDI channels 0..15 the keys are visited in ascending order |
| CoreMusicTheory.NormalizeNoteName | src/core/musicTheory.js:137-143 | a flat alias (one of the five flats Db to Bb, alone or followed by 4 or 5) becomes the sharp one semitone below with its octave suffix kept; every other name, "Db3" and "Bb7" included, is returned unchanged |
| CoreMusicTheory.NormalizeChangesExactlyFlats | src/core/musicTheory.js:137-143 | a name changes exactly when it is a flat alias, and then only its accidental: same length, "#" in place of "b", same octave suffix |
| CoreMusicTheory.NormalizeMatchesAliasTable | src/core/musicTheory.js:7-26 | NOTE_ALIASES entry by entry, and names outside it (Cb, Fb, Db3) left as they are |
| CoreMusicTheory.FlatsNormalizeToSharps | src/core/musicTheory.js:7-12 | each flat normalises to the sharp a semitone below the next letter, and every sharp name to itself |
| CoreMusicTheory.RomanNumeral | src/core/musicTheory.js:62-77 | every numeral of the table maps to a scale degree in 0..6 |
| CoreMusicTheory.PlainNoteName | src/core/musicTheory.js:116-143 | the twelve sharp names have no digit, normalise to themselves and are found at their own index |
| CoreMusicTheory.ParseNoteStringContract | src/core/musicTheory.js:116-130 | a string ending in a digit splits into a prefix not ending in a digit and its trailing digits, whose value is the octave; any other string is the note in octave 4 |
| CoreMusicTheory.ParseSpelledNote | src/core/musicTheory.js:116-130 | a note name followed by a non-negative octave splits back into that name and that octave |
| CoreMusicTheory.SpelledNoteToMidi | src/core/musicTheory.js:150-164 | a note written with octave o >= 0 reads as its index + 12 * (o + 1) |
| CoreMusicTheory.MidiToNoteSpelling | src/core/musicTheory.js:171-180 | the name of a number in 0..127 is its sharp pitch-class name and octave floor(n / 12) - 1 |
| CoreMusicTheory.MidiNoteRoundTrip | src/core/musicTheory.js:150-180 | midiToNote then noteToMidi gives back every number from 12 to 127; the octave -1 names do not read back |
| CoreMusicTheory.NoteNameRoundTrip | src/core/musicTheory.js:150-180 | noteToMidi then midiToNote gives back the sharp spelling of the name |
| CoreMusicTheory.DashedName | src/core/musicTheory.js:150-164 | a known name followed by '-' is not a note, so a negative octave cannot be read |
| CoreMusicTheory.NamedNoteToMidi | src/core/musicTheory.js:150-164 | a known name followed by octave o >= 0 is index + 12 * (o + 1) |
| CoreMusicTheory.NamedNegativeOctave | src/core/musicTheory.js:116-164 | "X-n" parses as the note "X-" in octave n and throws |
| CoreMusicTheory.RootMidiOfPlainRoot | src/core/musicTheory.js:196-218 | a plain root in octave o >= 0 resolves to index + 12 * (o + 1) |
| CoreMusicTheory.RootMidiOfNegativeOctave | src/core/musicTheory.js:196-218 | with a negative octave the written-back root cannot be read, so the root does not resolve |
| CoreMusicTheory.InRangeContract | src/core/musicTheory.js:221-224 | a number is kept exactly when it lies in 0..127 and is one of the intervals above the root, at most one per interval, and ascending intervals keep ascending notes |
| CoreMusicTheory.InRangeComplete | src/core/musicTheory.js:221-224 | when every note fits in 0..127 the filter keeps them all, in interval order |
| CoreMusicTheory.VoicedContract | src/core/musicTheory.js:196-224 | an unresolvable root is the error; otherwise the notes are exactly the MIDI numbers one interval above the resolved root, ascending when the intervals ascend |
| CoreMusicTheory.GenerateScaleContract | src/core/musicTheory.js:189-229 | unknown type first, then an unresolvable root; a scale is, in strictly ascending order, every MIDI number in 0..127 that lies one of the type's intervals above the root |
| CoreMusicTheory.GenerateChordContract | src/core/musicTheory.js:238-278 | the same contract over CHORD_TYPES: exactly the in-range chord tones, strictly ascending |
| CoreMusicTheory.VoicedPlainRoot | src/core/musicTheory.js:196-224 | a plain root in octave o >= 0 whose notes all fit gives exactly index + 12 * (o + 1) plus each interval |
| CoreMusicTheory.ScaleOfPlainRoot | src/core/musicTheory.js:189-229 | a plain root in octave o >= 0 gives index + 12 * (o + 1) plus every interval, when they all fit |
| CoreMusicTheory.ScaleOfNegativeOctave | src/core/musicTheory.js:189-229 | a negative octave makes every plain root throw |
| CoreMusicTheory.ChordOfPlainRoot | src/core/musicTheory.js:238-278 | a plain root in octave o >= 0 gives index + 12 * (o + 1) plus every chord interval, when they all fit |
| CoreMusicTheory.IntervalsBounded | src/core/musicTheory.js:28-60 | scale intervals lie in 0..11 and chord intervals in 0..17 |
| CoreMusicTheory.IntervalsAscend | src/core/musicTheory.js:28-60 | the intervals of every scale and chord type rise strictly |
| CoreMusicTheory.GetKeySignature | src/core/musicTheory.js:285-340 | an entry of KEY_SIGNATURES is returned verbatim; otherwise a mode other than major or minor throws, and so does an unknown minor root |
| CoreMusicTheory.ComputedMinorUsesRelativeMajor | src/core/musicTheory.js:312-326 | outside the table a minor key gets the signature of the major key 3 semitones up, read from the sharp side only |
| CoreMusicTheory.SplitAfterRoot | src/core/musicTheory.js:298 | `key.split(' ')` of "root mode" gives back the root and the mode |
| CoreMusicTheory.FilledAsWritten | src/core/musicTheory.js:357-364 | the loop as written always fills the scale up to exactly seven slots |
| CoreMusicTheory.FillScale | src/core/musicTheory.js:357-364 | the loop's result is FilledAsWritten: the scale followed by copies of the next octave's root up to 7 slots |
| CoreMusicTheory.FilledIntended | src/core/musicTheory.js:357-364 | the evident intention: seven slots, the slot after the short scale's last note holding the next octave's degrees in order (`undefined` past its end) |
| CoreMusicTheory.FilledIntendedAscends | src/core/musicTheory.js:357-364 | the intended completion of an ascending scale by an ascending higher octave ascends through all seven degrees |
| CoreMusicTheory.FillScaleRepeatsNextRoot | src/core/musicTheory.js:361-363 | as written, a scale of five or fewer notes gets the next root as both sixth and seventh degree and does not ascend |
| CoreMusicTheory.FullScaleOfShortScale | src/core/musicTheory.js:354-364 | a scale of fewer than seven notes is completed from the next octave's scale by the loop as written |
| CoreMusicTheory.NumeralChords | src/core/musicTheory.js:366-405 | one chord or error per numeral, in order; an unknown numeral is its own error, and a numeral on a slot the completion left `undefined` is the TypeError of `.replace` on NaN |
| CoreMusicTheory.NumeralOnMissingSlotThrows | src/core/musicTheory.js:361-375 | a slot past the partial scale is `undefined` exactly when the next octave yields no note, and a numeral on such a slot throws the TypeError of `.replace` (midiToNote lets `undefined` through its range test and returns NaN) |
| CoreMusicTheory.ShortScaleFillRepeats | src/core/musicTheory.js:354-364 | for a pentatonic scale on any plain key the completed scale repeats the next octave's first note (C4: ..., 69, 72, 72) |
| CoreMusicTheory.GenerateChordProgression | src/core/musicTheory.js:350-408 | a failing scale (unknown mode or key) is the error; otherwise the completed scale has seven slots and the result is the first numeral error (an unknown numeral, or the TypeError of `.replace` on a missing slot), or one chord per numeral |
| CoreMusicTheory.QualityIsTriad | src/core/musicTheory.js:378-401 | every quality chosen, in any mode, is a known three-note chord at most 7 semitones wide |
| CoreMusicTheory.StrippedNoteName | src/core/musicTheory.js:375 | removing the octave digit from the name of MIDI 12..119 leaves the plain root of its pitch class |
| CoreMusicTheory.ChordOnPitchClass | src/core/musicTheory.js:375-404 | the chord rebuilt from the stripped name and `floor(n / 12) - 1` starts at the scale note itself |
| CoreMusicTheory.DegreeChordOnNote | src/core/musicTheory.js:374-404 | a triad on a scale note of octaves 0 to 8 starts at that note |
| CoreMusicTheory.NumeralChordOnDegree | src/core/musicTheory.js:366-405 | each chord of a progression is built on the scale note of its degree, in that note's own octave |
| CoreMusicTheory.StrippedLowNoteName | src/core/musicTheory.js:375 | the name of a note below 12 is "X-1", and stripping its digit leaves "X-", which is not a note |
| CoreMusicTheory.ChordOfUnknownRoot | src/core/musicTheory.js:258-264 | a root without digits that is not a note makes generateChord throw |
| CoreMusicTheory.NumeralChordBelowOctaveZero | src/core/musicTheory.js:374-404 | a scale note below MIDI 12 has no chord, so the progression throws |
| CoreMusicTheory.MajorQualitiesAreStackedThirds | src/core/musicTheory.js:380-388 | the major quality table names exactly the triads stacked in thirds on the major scale |
| CoreMusicTheory.MinorQualitiesAreStackedThirds | src/core/musicTheory.js:389-397 | likewise for the minor table and the natural minor scale |
| RootTheory.GetNoteNumberContract | midi-framework.js:13-17 | null exactly for a name outside NOTE_NAMES; the k-th name in octave o is k + 12 * o, and an omitted octave is 4 |
| RootTheory.GetNoteNameOfPitchClass | midi-framework.js:20-24 | the name of k + 12 * (o + 1) is the k-th name followed by the decimal text of o |
| RootTheory.NameOfNoteNumber | midi-framework.js:13-24 | a name in octave o >= 0 is numbered index + 12 * o, and getNoteName reads that number back one octave lower, as octave o - 1 |
| RootTheory.ScaleTableAscends | midi-framework.js:27-34 | every scale of SCALES has at least five intervals, strictly increasing within one octave |
| RootTheory.ChordTableAscends | midi-framework.js:51-65 | every chord of CHORDS has at least three intervals, strictly increasing within one octave |
| RootTheory.BuildContract | midi-framework.js:37-79 | an unknown type throws first, then an unknown root; otherwise one note per interval, each the root number (octave 4 when omitted) plus that interval |
| RootTheory.GenerateScaleContract | midi-framework.js:37-48 | generateScale: the type is 'major' and the octave 4 when omitted; the two errors in order; otherwise a strictly increasing scale starting at the root, index + 12 * octave plus each interval |
| RootTheory.GenerateChordContract | midi-framework.js:68-79 | generateChord: the same over CHORDS, with 'major' and octave 4 by default |
| RootTheory.DegreeChords | midi-framework.js:101-129 | one chord (or error) per scale degree of the progression |
| RootTheory.DegreeQualityRule | midi-framework.js:106-117 | minor scale: every chord minor; major scale: degrees 2, 3, 6 minor, 7 diminished, others major; any other scale: major; always a known chord type |
| RootTheory.ProgressionDegreesPositive | midi-framework.js:82-89 | every PROGRESSIONS entry lists degrees from 1 up |
| RootTheory.GenerateProgressionErrors | midi-framework.js:92-98 | an unknown progression name throws first; otherwise a failing scale's error is passed on |
| RootTheory.DegreeChordOf | midi-framework.js:119-128 | a chord on scale note m is named NOTE_NAMES[m % 12], octave floor(m / 12) - 1, and its notes start at m - 12 |
| RootTheory.DegreeChordsOk | midi-framework.js:101-129 | on a non-negative scale every degree succeeds; chord i has the quality of degree i and starts at scale[(degree - 1) % length] - 12 |
| RootTheory.ProgressionOfScale | midi-framework.js:92-130 | a known progression on a scale that exists is the degree chords of that scale, with the scale type defaulting to 'major' |
| RootTheory.ScaleNonNegative | midi-framework.js:37-48 | a scale generated from a non-negative octave is non-empty and non-negative |
| RootTheory.GenerateProgressionChords | midi-framework.js:92-130 | generateProgression (scale type 'major' when omitted) gives one chord per degree of the named progression, each with the degree's quality, one octave below its scale note |
| RootSequence.MidiNote.Transpose | midi-framework.js:158-162 | the transposed pitch is the shifted pitch clamped to 0..127, every other field kept |
| RootSequence.MidiNote.SetDuration | midi-framework.js:165-169 | the new duration is the requested one, or 0 when it is negative; nothing else changes |
| RootSequence.MidiNote.SetVelocity | midi-framework.js:172-176 | the new velocity is the requested one clamped to 0..127; nothing else changes |
| RootSequence.TransposeInverse | midi-framework.js:158-162 | a transposition that stays in range is undone by the opposite one |
| RootSequence.SetVelocityIdempotent | midi-framework.js:172-176 | setting the velocity a note already has changes nothing |
| RootSequence.NewSequence | midi-framework.js:211-218 | a new sequence is empty with tempo 120, key "C major", name "Untitled Sequence", 4/4 and a generated id wherever the option is missing or falsy |
| RootSequence.FromJsonRoundTrip | midi-framework.js:285-308 | reading back what toJSON wrote gives the same sequence when its metadata is truthy; notes and time signature always survive, a zero tempo becomes 120 and an empty id a generated one |
| RootSequence.TransposedContract | midi-framework.js:265-283 | a transposed copy has as many notes, each with the same timing and a pitch shifted and clamped to 0..127, and a freshly generated id |
| RootSequence.MaxEnd | midi-framework.js:259-262 | the result is the latest end time of any note: no note ends later and some note ends then |
| RootSequence.Duration | midi-framework.js:259-262 | an empty sequence lasts 0; otherwise the duration is the latest note end |
| RootSequence.NotesInRangeContract | midi-framework.js:246-250 | the notes in range are exactly the notes overlapping the open interval, each kept as often as it occurs |
| RootSequence.MidiSequence.constructor | midi-framework.js:211-218 | the new object holds NewSequence of its options |
| RootSequence.MidiSequence.AddNote | midi-framework.js:226-229 | the note is appended; metadata unchanged |
| RootSequence.MidiSequence.AddNotes | midi-framework.js:232-235 | the notes are appended in order; metadata unchanged |
| RootSequence.MidiSequence.RemoveNote | midi-framework.js:238-243 | an index in range removes exactly that note and shifts the later ones down; any other index changes nothing |
| RootSequence.MidiSequence.Clear | midi-framework.js:253-256 | the notes become empty; metadata unchanged |
| RootSequence.MidiSequence.GetDuration | midi-framework.js:259-262 | 0 for no notes, otherwise no note ends after the result |
| RootSequence.MidiSequence.Clone | midi-framework.js:272-283 | a fresh object with the same notes and metadata and a generated id |
| RootSequence.MidiSequence.Transpose | midi-framework.js:265-269 | a fresh object holding the transposed copy |
| RootPatterns.CreateRhythmicPattern | midi-framework.js:317-344 | the notes are exactly the specification RhythmicNotes of the rounds requested (none for a count below 1), starting at 0 with one round when those are omitted |
| RootPatterns.RhythmicPass | midi-framework.js:322-340 | one pass emits PassNotes and advances the clock by the sum of the absolute durations, rests included |
| RootPatterns.ChordChunk | midi-framework.js:331-337 | a chord entry gives one note per pitch, all at the same time and duration |
| RootPatterns.EmitContract | midi-framework.js:325-338 | a duration at most 0 emits nothing; otherwise one plain note per pitch of the entry (a single pitch or a chord) |
| RootPatterns.PassStartIsMultiple | midi-framework.js:319-341 | pass r starts at startTime + r times the sum of absolute durations |
| RootPatterns.PassNotesWithin | midi-framework.js:322-340 | every note of a pass starts within the pass's time span |
| RootPatterns.PassNotesSorted | midi-framework.js:322-340 | the notes of a pass come in non-decreasing start order |
| RootPatterns.RhythmicNotesTimes | midi-framework.js:317-344 | all the pattern's notes are in start order and start between startTime and the end of the last pass |
| RootPatterns.PassNotesPlain | midi-framework.js:332-336 | every note has a positive duration, velocity 80 and channel 0 |
| RootPatterns.PassNotesOfRests | midi-framework.js:324-325 | a pass made only of rests emits no note |
| RootPatterns.PatternFor | midi-framework.js:361-381 | every type, known or not ('basic' is the fallback), selects a pattern of three 16-step voices |
| RootPatterns.CreateDrumPattern | midi-framework.js:347-408 | the notes are DrumNotes of the selected pattern over the measures requested, 'basic' and one measure when omitted |
| RootPatterns.DrumMeasure | midi-framework.js:384-405 | one measure emits MeasureNotes over all 16 sixteenths |
| RootPatterns.MeasureNotesCount | midi-framework.js:387-404 | a measure has as many notes as the three voices have hits |
| RootPatterns.DrumNotesCount | midi-framework.js:384-405 | the pattern has measures times hits-per-measure notes |
| RootPatterns.BasicHits | midi-framework.js:363-381 | 'basic', and any type other than 'rock' and 'funk', has 12 hits per measure |
| RootPatterns.RockHits | midi-framework.js:368-372 | 'rock' has 14 hits per measure |
| RootPatterns.FunkHits | midi-framework.js:373-377 | 'funk' has 26 hits per measure |
| RootPatterns.StepNotesShape | midi-framework.js:388-403 | a step's notes are kick 36/100, snare 38/90 or closed hi-hat 42/80 on channel 9, all at that sixteenth |
| RootPatterns.DrumNotesShape | midi-framework.js:384-407 | every note is a drum voice on channel 9, in start order, starting in [0, 4 * measures) |
| RootPatterns.ExpandedContract | midi-framework.js:416-421 | octaveRange copies of the chord, copy k raised by 12k semitones |
| RootPatterns.OctaveChunk | midi-framework.js:418-420 | one octave's copy of the chord notes shifted by the given amount |
| RootPatterns.ExpandOctaves | midi-framework.js:416-421 | the loop builds Expanded of the rounds requested |
| RootPatterns.ArpPatternPermutes | midi-framework.js:425-448 | 'up', 'down', 'random' and unknown patterns reorder the expanded notes without losing or adding any; 'up' and the default ascend, 'down' descends |
| RootPatterns.UpDownShape | midi-framework.js:432-436 | 'updown' is the ascending list followed by its inner part descending: 2n-2 pitches for n of at least 2 |
| RootPatterns.UpDownTailContract | midi-framework.js:435 | the descending part drops the highest and the lowest note |
| RootPatterns.CreateArpeggio | midi-framework.js:411-463 | the notes are ArpNotes of the pattern's pitches, repeats times its length of them (random order given as the shuffled argument); omitted arguments are one octave, 'up', 0.25 beats, time 0 and one repeat |
| RootPatterns.ArpLoop | midi-framework.js:451-460 | the repeat loop emits ArpNotes for rounds times the pattern length |
| RootPatterns.ArpNotesContract | midi-framework.js:451-460 | note k has pitch pitches[k mod n] and starts at startTime + k * noteDuration |
| RootPatterns.CreateChordProgression | midi-framework.js:466-486 | the notes are ProgressionNotes of every chord, one beat per chord from time 0 when the rhythm and start are omitted |
| RootPatterns.ProgressionNotesCount | midi-framework.js:470-483 | one note per chord note over all chords |
| RootPatterns.ProgressionChordNote | midi-framework.js:470-483 | note k of chord i has its pitch, starts at startTime plus the rhythm of the chords before it, lasts rhythm[i mod length] and has velocity 80, channel 0 |
| RootPatterns.CreateBassline | midi-framework.js:489-513 | the notes are BassNotes of every chord, with rhythm [1, 0.5, 0.5] from time 0 when those are omitted |
| RootPatterns.BassChunk | midi-framework.js:498-509 | one chord's rhythm pass emits BassPass and advances the clock by the sum of absolute durations |
| RootPatterns.BassPassContract | midi-framework.js:498-509 | one note per positive duration, each at the root an octave down with velocity 90 on channel 1 |
| RootPatterns.BassNotesCount | midi-framework.js:493-510 | chords times positive rhythm values notes |
| RootPatterns.BassNotesShape | midi-framework.js:493-510 | each chord's block of notes sits at that chord's root minus 12 |
| RootPatterns.NotePitches | midi-framework.js:628 | the pitches of the notes, in order |
| RootPatterns.ChangeRhythm | midi-framework.js:619-649 | a fresh sequence keeping the metadata, named with " (Rhythm Variation)", holding the re-timed pitches |
| RootPatterns.VariationCount | midi-framework.js:634-646 | one note per positive duration of the new rhythm |
| RootPatterns.VariationPitches | midi-framework.js:636 | the k-th note takes the pitches cyclically: pitches[k mod n] |
| RootPatterns.VariationPlain | midi-framework.js:637-642 | every note has a positive duration, velocity 80 and channel 0 |
| RootPatterns.VariationTimes | midi-framework.js:631-646 | notes start in order from 0 within the total absolute rhythm length |
| RootPatterns.MergeSequences | midi-framework.js:522-537 | no sequences give a new default sequence; otherwise a fresh copy of the first's metadata holding all notes of all sequences in order |
| RootPatterns.ConcatNotesCount | midi-framework.js:532-534 | the merged notes number the sum of the inputs' notes |
| RootPatterns.MergedSlices | midi-framework.js:532-534 | each input's notes appear unchanged as its own slice of the merged notes |
| RootPatterns.MergeTwo | midi-framework.js:522-537 | merging two sequences gives the first's metadata with the two note lists concatenated |
| RootSession.Record | midi-framework.js:849-867 | the recorded history stays within 50 entries, ends in the new operation with the cursor on it, and nothing but the history changes |
| RootSession.RecordKeepsPast | midi-framework.js:849-867 | the new history is the entries up to the cursor plus the operation, with the oldest dropped once 50 is exceeded |
| RootSession.RecordValid | midi-framework.js:849-867 | recording keeps the session consistent |
| RootSession.CurrentSequence | midi-framework.js:682-687 | a sequence exactly when the current id is set, non-empty and stored, and then the stored one |
| RootSession.GetSequence | midi-framework.js:699-704 | the stored sequence, or a not-found error exactly when the id is absent |
| RootSession.ListSequences | midi-framework.js:707-716 | one summary per stored sequence, in key order |
| RootSession.ListSequencesOnce | midi-framework.js:707-716 | every stored sequence is listed, each key once |
| RootSession.Updated | midi-framework.js:753-758 | updating properties never changes a sequence's id or notes |
| RootSession.ExportCurrentSequence | midi-framework.js:825-832 | the current sequence's record, or NoCurrentSequence exactly when there is none |
| RootSession.CreateSequenceValid | midi-framework.js:668-679 | creating a sequence keeps the session consistent |
| RootSession.SetCurrentSequenceValid | midi-framework.js:690-696 | selecting a sequence keeps the session consistent |
| RootSession.DeleteSequenceValid | midi-framework.js:719-742 | deleting a sequence keeps the session consistent, including the choice of the first remaining key as current |
| RootSession.UpdateSequenceValid | midi-framework.js:745-767 | updating keeps the session consistent |
| RootSession.AddNoteValid | midi-framework.js:770-785 | adding a note keeps the session consistent |
| RootSession.AddNotesValid | midi-framework.js:788-803 | adding notes keeps the session consistent |
| RootSession.ClearNotesValid | midi-framework.js:806-822 | clearing keeps the session consistent |
| RootSession.ImportSequenceValid | midi-framework.js:835-846 | importing keeps the session consistent |
| RootSession.UndoValid | midi-framework.js:870-923 | undoing keeps the session consistent |
| RootSession.RedoValid | midi-framework.js:926-976 | redoing keeps the session consistent |
| RootSession.UndoCursor | midi-framework.js:870-876 | undo reports false exactly when the cursor is below 0, and then changes nothing; otherwise the cursor moves back one; the history itself never changes |
| RootSession.RedoCursor | midi-framework.js:926-932 | redo reports false exactly when the cursor is on the last entry, and then changes nothing; otherwise the cursor moves forward one; the history never changes |
| RootSession.UndoAddNotes | midi-framework.js:902-906 | adding notes and then undoing removes exactly the added notes, returning every sequence to its prior notes |
| RootSession.RedoAddNotes | midi-framework.js:926-960 | redoing the undone addNotes restores the state right after it |
| RootSession.UndoAddNote | midi-framework.js:896-900 | adding one note and undoing pops exactly that note |
| RootSession.UndoClearNotes | midi-framework.js:908-912 | clearing and undoing restores the previous notes |
| RootSession.UndoCreateSequence | midi-framework.js:880-886 | undoing a creation removes the new sequence and makes the previous history entry's sequence (or none) current |
| RootSession.SessionToJson | midi-framework.js:979-986 | the session record holds the id, the current id and every sequence in key order |
| RootSession.SessionJsonRoundTrip | midi-framework.js:979-1001 | reading back a session's record gives the same sequences, order and current id, with an empty history |
| RootSession.Session.constructor | midi-framework.js:657-665 | a new session is empty with the given id, or a generated one when it is missing or empty |
| RootSession.Session.AddToHistory | midi-framework.js:849-867 | the history becomes Record of the old state |
| RootSession.Session.CreateSequence | midi-framework.js:668-679 | the new state and result are CreateSequenceStep's, and the session stays valid |
| RootSession.Session.SetCurrentSequence | midi-framework.js:690-696 | the new state and result are SetCurrentSequenceStep's: not-found error for a missing id |
| RootSession.Session.DeleteSequence | midi-framework.js:719-742 | the new state and result are DeleteSequenceStep's |
| RootSession.Session.UpdateSequence | midi-framework.js:745-767 | the new state and result are UpdateSequenceStep's |
| RootSession.Session.AddNote | midi-framework.js:770-785 | the new state and result are AddNoteStep's: NoCurrentSequence error without a current sequence |
| RootSession.Session.AddNotes | midi-framework.js:788-803 | the new state and result are AddNotesStep's |
| RootSession.Session.ClearNotes | midi-framework.js:806-822 | the new state and result are ClearNotesStep's |
| RootSession.Session.ImportSequence | midi-framework.js:835-846 | the new state and result are ImportSequenceStep's |
| RootSession.Session.Undo | midi-framework.js:870-923 | the new state and result are UndoStep's, and the session stays valid |
| RootSession.Session.Redo | midi-framework.js:926-976 | the new state and result are RedoStep's, and the session stays valid |
| RootSession.Session.FromSessionJson | midi-framework.js:989-1001 | a fresh session holding SessionFromJson of the record |
| CoreFrameworkTheory.PitchClassName | src/core/midi-framework.js:10-14 | for a non-negative number, the name is the NOTE_NAMES entry of its pitch class |
| CoreFrameworkTheory.NumberMatchAt | src/core/midi-framework.js:18-19 | a match at a position is a letter A-G, an optional # or b, and a non-empty digit run |
| CoreFrameworkTheory.FirstNumberMatch | src/core/midi-framework.js:18-19 | the leftmost match, when there is one, has that shape |
| CoreFrameworkTheory.GetNoteNumber | src/core/midi-framework.js:17-33 | a string the pattern does not match fails with InvalidNoteName; any success is at least 12 (octave 0 and up) |
| CoreFrameworkTheory.GetNoteNumberOfName | src/core/midi-framework.js:17-33 | a NOTE_NAMES name followed by octave digits gives index + 12 * (octave + 1) |
| CoreFrameworkTheory.GetNoteNumberOfFlat | src/core/midi-framework.js:25-30 | a matched flat name (Db, Eb, Gb, Ab, Bb) is not in NOTE_NAMES and throws |
| CoreFrameworkTheory.NoNumberMatchWithoutDigit | src/core/midi-framework.js:18-23 | a string with no digit never matches |
| CoreFrameworkTheory.NoteNameRoundTrip | src/core/midi-framework.js:10-33 | getNoteNumber inverts getNoteName from 12 up |
| CoreFrameworkTheory.NameBelowOctaveZeroThrows | src/core/midi-framework.js:10-33 | below 12 the name carries octave -1, which getNoteNumber rejects |
| CoreFrameworkTheory.ScalePattern | src/core/midi-framework.js:36-49 | every SCALES entry starts at 0 and ascends strictly below 12 |
| CoreFrameworkTheory.ChordPattern | src/core/midi-framework.js:52-66 | every CHORDS entry starts at 0 and ascends strictly below 12 |
| CoreFrameworkTheory.RootMatchAt | src/core/midi-framework.js:73 | a root match is the letter at that position, an optional accidental, and optional digits, read in place |
| CoreFrameworkTheory.RootNumber | src/core/midi-framework.js:90-91 | a numeric root is used as it is |
| CoreFrameworkTheory.FromPattern | src/core/midi-framework.js:83-101 | a missing pattern gives its unknown-type error; a result has one note per interval |
| CoreFrameworkTheory.NamedRootNumber | src/core/midi-framework.js:73-98 | a named root's octave is taken from its digits when present, else the argument, and the root is index + 12 * octave |
| CoreFrameworkTheory.GenerateScale | src/core/midi-framework.js:69-102 | an unknown scale type (after lower-casing) fails with UnknownScaleType; a result has one note per interval |
| CoreFrameworkTheory.GenerateChord | src/core/midi-framework.js:105-138 | an unknown chord type fails with UnknownChordType; a result has one note per interval |
| CoreFrameworkTheory.GenerateScaleOfName | src/core/midi-framework.js:69-102 | a named root gives root index + 12 * octave plus each scale interval, in table order |
| CoreFrameworkTheory.GenerateChordOfName | src/core/midi-framework.js:105-138 | a named root gives root index + 12 * octave plus each chord interval, in table order |
| CoreFrameworkTheory.GenerateChordOfFlat | src/core/midi-framework.js:125-132 | a flat root such as Db is not in NOTE_NAMES: InvalidRootNote |
| CoreFrameworkTheory.CamelCaseChordTypesUnreachable | src/core/midi-framework.js:119 | no lower-cased string equals the keys halfDiminished7 or minorMajor7 |
| CoreFrameworkTheory.CamelCaseChordTypesThrow | src/core/midi-framework.js:119-122 | asking for halfDiminished7 or minorMajor7 always throws UnknownChordType |
| CoreFrameworkTheory.ProgressionPattern | src/core/midi-framework.js:172-188 | an array is used as given, a predefined name gives its table entry, any other string is split on '-', and a value of another kind is an error |
| CoreFrameworkTheory.RomanDegree | src/core/midi-framework.js:159-167 | every ROMAN_TO_DEGREE entry is a degree 0..6 |
| CoreFrameworkTheory.DegreeResults | src/core/midi-framework.js:194-245 | one chord result per symbol, in order |
| CoreFrameworkTheory.GenerateProgressionContract | src/core/midi-framework.js:170-246 | the progression succeeds exactly when every symbol's chord does, with one chord per symbol whose quality follows the mode and degree, and an unknown symbol makes it fail |
| CoreFrameworkTheory.DegreeChordType | src/core/midi-framework.js:207-233 | each chord's quality is DegreeQuality of the mode and symbol |
| CoreFrameworkTheory.StrippedNoteName | src/core/midi-framework.js:204 | the root name is the pitch class name, with a stray '-' left for notes below 12 |
| CoreFrameworkTheory.NoteChordBelow | src/core/midi-framework.js:202-244 | a chord on any scale note has that root name and octave floor(note/12) - 1, and its notes start 12 below the scale note |
| CoreFrameworkTheory.DegreeChordOfNote | src/core/midi-framework.js:194-245 | a known symbol whose degree the scale has yields the chord on that scale note |
| CoreFrameworkTheory.GenerateProgressionOfDegrees | src/core/midi-framework.js:170-246 | with a seven-note scale and known symbols, chord i is built on the scale note of symbol i's degree |
| CoreFrameworkTheory.PredefinedSymbolsHaveDegrees | src/core/midi-framework.js:141-167 | every symbol used in PROGRESSIONS is in ROMAN_TO_DEGREE |
| CoreFrameworkTheory.ModeWordAt | src/core/midi-framework.js:250 | the mode alternative matches exactly where the text at that point starts with m or M |
| CoreFrameworkTheory.FirstKeyMatch | src/core/midi-framework.js:250-255 | no match exactly when the key has no letter A-G in either case |
| CoreFrameworkTheory.Counts | src/core/midi-framework.js:265-290 | sharps from sharpKeys, else flats from flatKeys, else none; never both |
| CoreFrameworkTheory.Signature | src/core/midi-framework.js:292-298 | the record keeps root and mode and reports the counts, with "n sharp(s)" when sharps are positive and "n flat(s)" otherwise |
| CoreFrameworkTheory.GetKeySignature | src/core/midi-framework.js:249-299 | the key is rejected with InvalidKeyFormat exactly when it holds no note letter |
| CoreFrameworkTheory.KeySignatureOfMatch | src/core/midi-framework.js:249-299 | the signature of the matched root, adjusted three semitones up for a minor key |
| CoreFrameworkTheory.LowercaseRootHasNoAccidentals | src/core/midi-framework.js:250-290 | a root matched in lower case is in neither table: 0 sharps and 0 flats |
| CoreFrameworkTheory.ExplicitModeReadsAsMinor | src/core/midi-framework.js:257-260 | as written, the mode is minor exactly when a mode word matched, whatever the word |
| CoreFrameworkTheory.GMajorReadsAsMinor | src/core/midi-framework.js:249-299 | as written, "G major" is read as G minor with no accidentals |
| CoreFrameworkTheory.FlatMinorKeysHaveNoAccidentals | src/core/midi-framework.js:275-290 | as written, C, F and G minor move to relative majors spelled with sharps (D#, G#, A#) that neither table lists |
| CoreFrameworkTheory.ModeIntendedNamesTheMode | src/core/midi-framework.js:250-260 | the intended mode reading is minor exactly for a word starting "min" (any case) or the single letter m |
| CoreFrameworkTheory.SpelledIndex | src/core/midi-framework.js:276 | the index of a root among sharp or flat spellings is -1 or a pitch class |
| CoreFrameworkTheory.GetKeySignatureIntended | src/core/midi-framework.js:249-299 | the corrected reading rejects exactly the keys with no note letter |
| CoreFrameworkTheory.GMajorHasOneSharp | src/core/midi-framework.js:249-299 | corrected, "G major" has one sharp |
| CoreFrameworkTheory.MinorKeysHaveAccidentals | src/core/midi-framework.js:273-290 | corrected, every minor key other than A minor has some accidental |
| CoreFrameworkTheory.MajorKeysHaveAccidentals | src/core/midi-framework.js:265-271 | every major spelling other than C has some accidental |
| CoreFrameworkSequence.NoteOf | src/core/midi-framework.js:304-310 | a note record keeps pitch and timing, with velocity 80 and channel 0 only where they are missing |
| CoreFrameworkSequence.JsonOf | src/core/midi-framework.js:352-360 | reading back a note's record gives the same note |
| CoreFrameworkSequence.NoteJsonRoundTrip | src/core/midi-framework.js:352-371 | a record with every field present survives reading and writing back |
| CoreFrameworkSequence.MidiNote.constructor | src/core/midi-framework.js:304-310 | the new note holds NoteOf its arguments |
| CoreFrameworkSequence.MidiNote.GetNoteName | src/core/midi-framework.js:313-315 | from pitch 12 up, the name reads back to the pitch |
| CoreFrameworkSequence.MidiNote.GetEndTime | src/core/midi-framework.js:318-320 | the end time is start plus duration |
| CoreFrameworkSequence.MidiNote.Clone | src/core/midi-framework.js:323-331 | a fresh note equal to this one |
| CoreFrameworkSequence.MidiNote.Transpose | src/core/midi-framework.js:334-337 | the pitch moves by the semitones, unclamped, in place; the note itself is returned |
| CoreFrameworkSequence.MidiNote.Move | src/core/midi-framework.js:340-343 | the start moves by the offset in place, and so does the end |
| CoreFrameworkSequence.MidiNote.Resize | src/core/midi-framework.js:346-349 | the duration becomes the new one in place |
| CoreFrameworkSequence.MidiNote.ToJSON | src/core/midi-framework.js:352-360 | the record has every field and reads back to this note |
| CoreFrameworkSequence.NoteFromJSON | src/core/midi-framework.js:363-371 | a fresh note holding NoteOf the record |
| CoreFrameworkSequence.TransposedNote | src/core/midi-framework.js:334-337 | the pitch differs by exactly the semitones and nothing else changes |
| CoreFrameworkSequence.NewSequence | src/core/midi-framework.js:376-383 | a new sequence is empty, with a generated id, "Untitled Sequence", 4/4, tempo 120 and "C major" wherever the option is missing or falsy |
| CoreFrameworkSequence.ArgNotes | src/core/midi-framework.js:386-407 | one note per argument, in order |
| CoreFrameworkSequence.MaxEnd | src/core/midi-framework.js:439-445 | the latest note end: no note ends later and one ends then |
| CoreFrameworkSequence.Duration | src/core/midi-framework.js:439-445 | 0 for no notes, otherwise the latest note end |
| CoreFrameworkSequence.ChannelNotes | src/core/midi-framework.js:434-436 | only notes of the channel, no more than there were |
| CoreFrameworkSequence.ChannelNotesCounts | src/core/midi-framework.js:434-436 | every note of the channel is kept as often as it occurs, every other note dropped |
| CoreFrameworkSequence.QuantizeAll | src/core/midi-framework.js:454-460 | every note quantised, in place order |
| CoreFrameworkSequence.QuantizeNoteContract | src/core/midi-framework.js:456-457 | the start moves to the nearest grid point (ties up) and the duration is at least one division; pitch, velocity and channel kept |
| CoreFrameworkSequence.QuantizeNoteIdempotent | src/core/midi-framework.js:454-460 | quantising twice equals quantising once |
| CoreFrameworkSequence.TransposeAll | src/core/midi-framework.js:463-466 | each note transposed, in order |
| CoreFrameworkSequence.TransposeAllInverse | src/core/midi-framework.js:463-466 | transposing back restores the notes, and transposition never changes the duration |
| CoreFrameworkSequence.DurationUnique | src/core/midi-framework.js:439-445 | the duration is the only value that bounds every end and is reached |
| CoreFrameworkSequence.FromJson | src/core/midi-framework.js:481-499 | the notes are NoteOf each record when notes is an array, none otherwise |
| CoreFrameworkSequence.ToJson | src/core/midi-framework.js:469-478 | the record lists every note's record in order |
| CoreFrameworkSequence.JsonRoundTrip | src/core/midi-framework.js:469-499 | reading back a sequence's record keeps its notes, gives the same sequence when its metadata is truthy, and turns a zero tempo into 120 and an empty name into "Untitled Sequence" |
| CoreFrameworkSequence.MidiSequence.constructor | src/core/midi-framework.js:376-383 | the new object holds NewSequence of its options |
| CoreFrameworkSequence.MidiSequence.AddNote | src/core/midi-framework.js:386-399 | the note is appended; nothing else changes |
| CoreFrameworkSequence.MidiSequence.AddNotes | src/core/midi-framework.js:402-407 | an array's notes are appended in order; anything else changes nothing |
| CoreFrameworkSequence.MidiSequence.RemoveNote | src/core/midi-framework.js:410-415 | an index in range removes exactly that note; any other index changes nothing |
| CoreFrameworkSequence.MidiSequence.Clear | src/core/midi-framework.js:418-421 | the notes become empty; nothing else changes |
| CoreFrameworkSequence.MidiSequence.GetNote | src/core/midi-framework.js:424-426 | the note at an index in range, nothing (undefined) otherwise |
| CoreFrameworkSequence.MidiSequence.GetNotesByChannel | src/core/midi-framework.js:434-436 | exactly the notes of the channel, each as often as it occurs |
| CoreFrameworkSequence.MidiSequence.GetDuration | src/core/midi-framework.js:439-445 | 0 for no notes, otherwise the latest note end |
| CoreFrameworkSequence.MidiSequence.SortNotes | src/core/midi-framework.js:448-451 | the notes end sorted by start time and are a permutation of the old ones |
| CoreFrameworkSequence.MidiSequence.Quantize | src/core/midi-framework.js:454-460 | the notes become QuantizeAll of the old ones, with division 0.25 by default |
| CoreFrameworkSequence.MidiSequence.Transpose | src/core/midi-framework.js:463-466 | the notes become TransposeAll of the old ones |
| CoreFrameworkSequence.MidiSequence.ToJSON | src/core/midi-framework.js:469-478 | the record reads back to the same notes, and to the same sequence when the metadata is truthy |
| CoreFrameworkSequence.SequenceFromJSON | src/core/midi-framework.js:481-499 | a fresh sequence holding FromJson of the record |
| CoreFrameworkPatterns.FirstUnusable | src/core/midi-framework.js:513-552 | the first entry the loop rejects: none exactly when every entry is a usable chord |
| CoreFrameworkPatterns.ChordBlockContract | src/core/midi-framework.js:523-531 | one note per chord pitch, all at the same time and duration |
| CoreFrameworkPatterns.ChordChunk | src/core/midi-framework.js:523-531 | the inner loop emits the whole chord block |
| CoreFrameworkPatterns.ChordProgression | src/core/midi-framework.js:505-538 | fails exactly when the progression is not an array or some chord is malformed |
| CoreFrameworkPatterns.CreateChordProgression | src/core/midi-framework.js:505-538 | the loop's result is ChordProgression's |
| CoreFrameworkPatterns.ProgressionNotesCount | src/core/midi-framework.js:513-535 | one note per chord pitch over all chords |
| CoreFrameworkPatterns.ProgressionChordNote | src/core/midi-framework.js:513-535 | note k of chord i has its pitch, starts after the rhythm values of the chords before it, lasts that chord's rhythm value, velocity 80, channel 0 |
| CoreFrameworkPatterns.ChordRhythmOfArray | src/core/midi-framework.js:519-520 | with an array rhythm, chord i lasts rhythm[i mod length] |
| CoreFrameworkPatterns.ChordStartWithoutArray | src/core/midi-framework.js:519-534 | with a rhythm that is not an array, every chord lasts 1 and chord i starts at i |
| CoreFrameworkPatterns.ChordProgressionFailsAtFirst | src/core/midi-framework.js:513-516 | the error names the index of the first malformed chord |
| CoreFrameworkPatterns.Bassline | src/core/midi-framework.js:541-574 | fails exactly when the progression is not an array or some chord has no first note |
| CoreFrameworkPatterns.CreateBassline | src/core/midi-framework.js:541-574 | the loop's result is Bassline's |
| CoreFrameworkPatterns.BassChunk | src/core/midi-framework.js:559-569 | one chord's pass emits BassPass and advances the clock by the plain sum of the durations |
| CoreFrameworkPatterns.BassPassAt | src/core/midi-framework.js:559-569 | note k sits at the root, starts after the durations before it, and has that duration, velocity 90, channel 1 (rests included) |
| CoreFrameworkPatterns.BassNotesCount | src/core/midi-framework.js:549-571 | chords times rhythm values notes: rests are emitted too |
| CoreFrameworkPatterns.BassStartIsMultiple | src/core/midi-framework.js:549-571 | chord c starts at c times the rhythm's sum |
| CoreFrameworkPatterns.BasslineNote | src/core/midi-framework.js:549-571 | note j of chord c is its root minus 12 at the chord's start plus the earlier durations |
| CoreFrameworkPatterns.CreateDrumPattern | src/core/midi-framework.js:577-659 | the notes are DrumNotes of the requested style, 'basic' for any other name; 'basic' and two measures when omitted |
| CoreFrameworkPatterns.DrumMeasure | src/core/midi-framework.js:584-646 | one measure emits that style's MeasureNotes |
| CoreFrameworkPatterns.HatLoop | src/core/midi-framework.js:593-639 | the hi-hat loop emits 8 (16 for funk) hi-hat notes |
| CoreFrameworkPatterns.HatsContract | src/core/midi-framework.js:593-639 | the hi-hats fall inside their measure on channel 9 |
| CoreFrameworkPatterns.MeasureContract | src/core/midi-framework.js:584-646 | a measure has 12 (basic), 14 (rock) or 25 (funk) notes, all on channel 9 within [4m, 4m+4) |
| CoreFrameworkPatterns.DrumNotesContract | src/core/midi-framework.js:577-659 | measures times the per-measure count, all on channel 9 within [0, 4 * measures) |
| CoreFrameworkPatterns.DownbeatKick | src/core/midi-framework.js:585-621 | every measure opens with a kick (36, velocity 100) on its downbeat |
| CoreFrameworkPatterns.ExpandedContract | src/core/midi-framework.js:671-677 | the chord followed by copies raised 12, 24 ... semitones, octaveRange copies in all |
| CoreFrameworkPatterns.ExpandOctaves | src/core/midi-framework.js:671-677 | the loop builds Expanded (a single copy when octaveRange is below 2) |
| CoreFrameworkPatterns.OctaveChunk | src/core/midi-framework.js:675 | one octave's copy: every chord note shifted |
| CoreFrameworkPatterns.SwapPermutes | src/core/midi-framework.js:700 | a swap keeps the same notes |
| CoreFrameworkPatterns.ShuffledPermutes | src/core/midi-framework.js:696-701 | the Fisher-Yates shuffle, driven by the given random values, keeps the same notes |
| CoreFrameworkPatterns.Shuffle | src/core/midi-framework.js:696-701 | the shuffle loop computes Shuffled |
| CoreFrameworkPatterns.ArpSequencePermutes | src/core/midi-framework.js:682-705 | every pattern but 'updown' reorders the notes without loss; 'up' and unknown names ascend, 'down' descends |
| CoreFrameworkPatterns.UpDownShape | src/core/midi-framework.js:689-694 | 'updown' is the ascending list followed by it without its highest note, reversed: 2n-1 pitches |
| CoreFrameworkPatterns.Arpeggio | src/core/midi-framework.js:662-723 | fails exactly when chordNotes is not an array |
| CoreFrameworkPatterns.CreateArpeggio | src/core/midi-framework.js:662-723 | the method's result is Arpeggio's, with one octave, 'up', 0.25 beats, time 0 and one repeat for omitted arguments |
| CoreFrameworkPatterns.ArpLoop | src/core/midi-framework.js:708-720 | the repeat loop emits ArpNotes for rounds times the sequence length |
| CoreFrameworkPatterns.ArpNotesContract | src/core/midi-framework.js:708-720 | note k has pitch sequence[k mod n] at startTime + k * noteDuration, velocity 80, channel 0 |
| CoreFrameworkPatterns.RhythmicPattern | src/core/midi-framework.js:726-755 | fails exactly when noteValues or notePitches is not an array |
| CoreFrameworkPatterns.CreateRhythmicPattern | src/core/midi-framework.js:726-755 | the loop's result is RhythmicPattern's, from time 0 with one pass when those are omitted |
| CoreFrameworkPatterns.RhythmicPass | src/core/midi-framework.js:736-751 | one pass emits PassNotes and advances by the sum of absolute durations |
| CoreFrameworkPatterns.PassStartIsMultiple | src/core/midi-framework.js:735-752 | pass r starts at startTime + r times the sum of absolute durations |
| CoreFrameworkPatterns.PassNotesTimes | src/core/midi-framework.js:736-751 | the notes of a pass are in start order within the pass |
| CoreFrameworkPatterns.RhythmicNotesTimes | src/core/midi-framework.js:735-752 | all notes are in start order between startTime and the end of the last pass |
| CoreFrameworkPatterns.PassNotesPlain | src/core/midi-framework.js:740-748 | one note per positive duration, velocity 80, channel 0 |
| CoreFrameworkPatterns.RhythmicNotesPlain | src/core/midi-framework.js:735-752 | repeats times the number of sounding values notes |
| CoreFrameworkOperations.Clones | src/core/midi-framework.js:775-776 | adding the clones of some notes adds exactly those notes |
| CoreFrameworkOperations.MergeSequences | src/core/midi-framework.js:761-779 | a fresh sequence holding Merged of the two |
| CoreFrameworkOperations.MergedContract | src/core/midi-framework.js:761-779 | the first sequence's notes followed by the second's, no note lost or added, with the first's time signature, tempo and key and the name "a + b" |
| CoreFrameworkOperations.MergedDuration | src/core/midi-framework.js:761-779 | a merge of two non-empty sequences lasts as long as the longer one |
| CoreFrameworkOperations.Channels | src/core/midi-framework.js:844-845 | the channel of every note, in order |
| CoreFrameworkOperations.Split | src/core/midi-framework.js:836-860 | one part per channel in key order, each the Part of that channel |
| CoreFrameworkOperations.SplitByChannel | src/core/midi-framework.js:836-860 | the grouping loop and Object.values give Split |
| CoreFrameworkOperations.ValuesInOrder | src/core/midi-framework.js:859 | the stored parts listed in the given key order |
| CoreFrameworkOperations.GroupByChannel | src/core/midi-framework.js:841-857 | the grouping loop computes Grouped |
| CoreFrameworkOperations.GroupedKeys | src/core/midi-framework.js:844-857 | channels are created in order of first appearance, and every created channel is stored |
| CoreFrameworkOperations.GroupedParts | src/core/midi-framework.js:847-856 | a channel's part has the derived metadata and exactly that channel's notes in order |
| CoreFrameworkOperations.ChannelKeysContract | src/core/midi-framework.js:844-859 | each channel that occurs is listed exactly once |
| CoreFrameworkOperations.SplitPartContract | src/core/midi-framework.js:836-860 | every part holds only its channel's notes and all of them, named "<name> (Channel c)" |
| CoreFrameworkOperations.SplitAscending | src/core/midi-framework.js:859 | for MIDI channels 0..15, integer keys make Object.values list the parts by ascending channel |
| CoreFrameworkOperations.CreateLoop | src/core/midi-framework.js:863-887 | a fresh sequence holding Looped of the sequence, four times when repeats is omitted |
| CoreFrameworkOperations.LoopNotesCount | src/core/midi-framework.js:878-884 | repeats times as many notes as the sequence has |
| CoreFrameworkOperations.LoopNoteAt | src/core/midi-framework.js:878-884 | note j of copy k is the original shifted by k times the duration |
| CoreFrameworkOperations.LoopNotesEndBy | src/core/midi-framework.js:875-884 | no note of the first r copies ends after r times the duration |
| CoreFrameworkOperations.LoopedDuration | src/core/midi-framework.js:863-887 | the loop lasts exactly repeats times the original duration |
| CoreFrameworkSession.PutSequenceValid | src/core/midi-framework.js:899-904 | storing a sequence under its own id, optionally making it current, keeps the session consistent |
| CoreFrameworkSession.LookupSequence | src/core/midi-framework.js:908-913 | the stored sequence, or SequenceNotFound exactly when the id is absent |
| CoreFrameworkSession.CurrentSequence | src/core/midi-framework.js:916-921 | a sequence exactly when the current id is set, non-empty and stored |
| CoreFrameworkSession.SequenceList | src/core/midi-framework.js:933-942 | one summary per stored sequence, in key order |
| CoreFrameworkSession.KeyCount | src/core/midi-framework.js:933-942 | the list has exactly as many entries as there are sequences |
| CoreFrameworkSession.SessionNote | src/core/midi-framework.js:952-963 | an instance is kept; a plain note gets velocity 80 when its velocity is falsy (0 included) and channel 0 when missing |
| CoreFrameworkSession.SessionNotes | src/core/midi-framework.js:952-963 | one converted note per argument, in order |
| CoreFrameworkSession.Converted | src/core/midi-framework.js:952-963 | a value that is not an array converts to no notes |
| CoreFrameworkSession.CurrentJson | src/core/midi-framework.js:982-989 | the current sequence's record, which reads back to its notes; NoCurrentSequence exactly when there is none |
| CoreFrameworkSession.CreateSequenceValid | src/core/midi-framework.js:900-905 | creating keeps the session consistent |
| CoreFrameworkSession.SetCurrentSequenceValid | src/core/midi-framework.js:924-930 | selecting keeps the session consistent |
| CoreFrameworkSession.AddNotesValid | src/core/midi-framework.js:945-967 | adding notes keeps the session consistent |
| CoreFrameworkSession.ClearNotesValid | src/core/midi-framework.js:970-979 | clearing keeps the session consistent |
| CoreFrameworkSession.ImportSequenceValid | src/core/midi-framework.js:992-1001 | importing keeps the session consistent |
| CoreFrameworkSession.CreateThenGet | src/core/midi-framework.js:900-913 | a created sequence can be fetched by its id, and is current unless its id is empty |
| CoreFrameworkSession.CreateListsLast | src/core/midi-framework.js:900-942 | a sequence with a new id is listed last |
| CoreFrameworkSession.SetThenCurrent | src/core/midi-framework.js:916-930 | after selecting a stored sequence with a non-empty id it is the current one; selecting a missing id fails and changes nothing |
| CoreFrameworkSession.AddNotesAppends | src/core/midi-framework.js:945-967 | the converted notes are returned and appended to the current sequence; every other sequence, the key order and the current id stay as they were |
| CoreFrameworkSession.NoCurrentFails | src/core/midi-framework.js:946-974 | without a current sequence, adding, clearing and exporting fail with NoCurrentSequence and change nothing |
| CoreFrameworkSession.ClearAfterAdd | src/core/midi-framework.js:945-979 | clearing after adding returns the old notes plus the added ones and leaves the sequence empty |
| CoreFrameworkSession.ExportImportRoundTrip | src/core/midi-framework.js:982-1001 | importing the exported record of a sequence with truthy metadata changes nothing and returns the same sequence |
| CoreFrameworkSession.ZeroVelocityBecomesDefault | src/core/midi-framework.js:960 | a plain note with velocity 0 is added by the session at velocity 80, while the sequence's own fromJSON keeps 0 |
| CoreFrameworkSession.SessionNoteAsAddNote | src/core/midi-framework.js:952-963 | apart from a plain note with velocity 0, the session converts a note as MidiSequence.addNote does |
| CoreFrameworkSession.Session.constructor | src/core/midi-framework.js:892-897 | a new session is empty with the given id, or a generated one when it is missing or empty |
| CoreFrameworkSession.Session.CreateSequence | src/core/midi-framework.js:900-905 | the new state and result are CreateSequenceStep's and the session stays valid |
| CoreFrameworkSession.Session.GetSequence | src/core/midi-framework.js:908-913 | the result is LookupSequence's |
| CoreFrameworkSession.Session.GetCurrentSequence | src/core/midi-framework.js:916-921 | the result is CurrentSequence's |
| CoreFrameworkSession.Session.SetCurrentSequence | src/core/midi-framework.js:924-930 | the new state and result are SetCurrentSequenceStep's |
| CoreFrameworkSession.Session.ListSequences | src/core/midi-framework.js:933-942 | the result is SequenceList's |
| CoreFrameworkSession.Session.AddNotes | src/core/midi-framework.js:945-967 | the new state and result are AddNotesStep's |
| CoreFrameworkSession.Session.ClearNotes | src/core/midi-framework.js:970-979 | the new state and result are ClearNotesStep's |
| CoreFrameworkSession.Session.ExportCurrentSequence | src/core/midi-framework.js:982-989 | the result is CurrentJson's |
| CoreFrameworkSession.Session.ImportSequence | src/core/midi-framework.js:992-1001 | the new state and result are ImportSequenceStep's: an unreadable record fails with ImportFailed |
| CoreChordGenerator.NoteToMidiContract | src/core/patternGenerator.js:40-45 | null exactly for a name outside noteNames; otherwise a number in the octave's range whose pitch class names it |
| CoreChordGenerator.NoteToMidiOfTable | src/core/patternGenerator.js:40-45 | the k-th name gives 12 * (octave + 1) + k |
| CoreChordGenerator.Voice | src/core/patternGenerator.js:64 | one tone per interval |
| CoreChordGenerator.VoiceAt | src/core/patternGenerator.js:64 | tone i is the root plus interval i |
| CoreChordGenerator.ChordKindOfName | src/core/patternGenerator.js:8-61 | a chord type is known exactly when it is one of the eight table keys, and it maps back to its own name |
| CoreChordGenerator.KindNames | src/core/patternGenerator.js:8-17 | every table entry's name looks up that entry |
| CoreChordGenerator.ChordTableShape | src/core/patternGenerator.js:8-17 | every interval list has at least three intervals, starts at 0 and rises strictly within an octave |
| CoreChordGenerator.GenerateChordErrors | src/core/patternGenerator.js:47-65 | InvalidRootNote exactly for a null root or an unknown name; otherwise InvalidChordType exactly for an unknown type |
| CoreChordGenerator.GenerateChordOfRoot | src/core/patternGenerator.js:47-65 | a valid root and type give the root plus each interval, in order, rising from the root |
| CoreChordGenerator.RootOfName | src/core/patternGenerator.js:50-52 | a named root becomes a number in its octave |
| CoreChordGenerator.NumeralLetters | src/core/patternGenerator.js:150 | only the letters I, i, V, v are kept, in order, and a string made only of them is kept whole |
| CoreChordGenerator.NumeralLettersIdempotent | src/core/patternGenerator.js:150 | filtering twice equals filtering once |
| CoreChordGenerator.NumeralLettersConcat | src/core/patternGenerator.js:150 | filtering a concatenation filters each part |
| CoreChordGenerator.DegreeRoot | src/core/patternGenerator.js:127-161 | the degree's root is a pitch class |
| CoreChordGenerator.ChordOnIsGenerateChord | src/core/patternGenerator.js:165 | each degree chord is generateChord on its root, quality and octave |
| CoreChordGenerator.DegreeIndex | src/core/patternGenerator.js:144-152 | the degree index is -1 or a scale degree 0..6 |
| CoreChordGenerator.DegreeChordOfTable | src/core/patternGenerator.js:139-166 | a known degree gives the chord of its quality (diminished when it contains 'o') on its scale note |
| CoreChordGenerator.DegreeChordOnName | src/core/patternGenerator.js:160-165 | that chord is built on the NOTE_NAMES name of the degree's pitch class |
| CoreChordGenerator.DegreeChordRejects | src/core/patternGenerator.js:148-155 | a degree without 'o' whose letters are not a scale degree throws InvalidChordDegree |
| CoreChordGenerator.DegreeChordUndefinedRoot | src/core/patternGenerator.js:144-165 | a degree with 'o' that is not in the degree table yields a chord of three NaN pitches rather than an error |
| CoreChordGenerator.GenerateProgressionContract | src/core/patternGenerator.js:118-167 | an unknown key throws InvalidKey; success has one chord per degree, each equal to that degree's chord |
| CoreChordGenerator.GenerateProgressionFails | src/core/patternGenerator.js:139-166 | a failure is the error of the first failing degree |
| CoreChordGenerator.GenerateProgressionOfChords | src/core/patternGenerator.js:118-167 | when every degree's chord succeeds the progression is exactly those chords |
| CoreChordGenerator.DefaultProgression | src/core/patternGenerator.js:69-167 | the default I-IV-V-I in C major, octave 4, is C4, F4, G4 and C4 major triads |
| CoreChordGenerator.ArpeggioChunk | src/core/patternGenerator.js:96-102 | one event per chord tone |
| CoreChordGenerator.GeneratePattern | src/core/patternGenerator.js:67-116 | a progression error is passed on; otherwise the events are PatternEvents of the chords, with duration 1 by default and arpeggios only for 'arpeggio' |
| CoreChordGenerator.LayOut | src/core/patternGenerator.js:83-113 | the loop builds PatternEvents |
| CoreChordGenerator.ArpeggiateChord | src/core/patternGenerator.js:96-102 | the inner loop builds ArpeggioChunk |
| CoreChordGenerator.ArpeggioTones | src/core/patternGenerator.js:96-102 | each arpeggio event holds one tone, and the first starts at the chord's slot |
| CoreChordGenerator.ArpeggioTouch | src/core/patternGenerator.js:99-100 | each arpeggio note ends where the next starts |
| CoreChordGenerator.ArpeggioEnd | src/core/patternGenerator.js:99-100 | the last arpeggio note ends where the next chord's slot starts |
| CoreChordGenerator.BlockLayout | src/core/patternGenerator.js:85-111 | block layout gives one event per chord at c * duration lasting duration |
| CoreChordGenerator.ArpeggioLength | src/core/patternGenerator.js:94-103 | arpeggio layout gives one event per tone |
| CoreChordGenerator.ArpeggioLayout | src/core/patternGenerator.js:94-103 | tone n of chord c is the arpeggio event after all earlier chords' tones |
| CoreBasslineGenerator.NamedPatternNames | src/core/patternGenerator.js:173-187 | a named pattern exists exactly for the four names, each four offsets starting at 0 |
| CoreBasslineGenerator.StartOnGrid | src/core/patternGenerator.js:204 | note i of chord c starts at (c * notesPerChord + i) * noteDuration |
| CoreBasslineGenerator.ChordPattern | src/core/patternGenerator.js:197-208 | one note per step of the chord |
| CoreBasslineGenerator.GeneratePattern | src/core/patternGenerator.js:181-212 | no roots give no notes; an unknown pattern name throws InvalidPattern; otherwise the notes are PatternLine with the defaults 4 per chord and 0.25 |
| CoreBasslineGenerator.PatternChordNotes | src/core/patternGenerator.js:197-208 | the inner loop builds ChordPattern |
| CoreBasslineGenerator.ChordPatternAt | src/core/patternGenerator.js:197-208 | step i has the root an octave down plus offset i mod length (NaN for an empty pattern), its grid start, and velocity 100 on the first step, 80 after |
| CoreBasslineGenerator.PatternLineLength | src/core/patternGenerator.js:196-209 | roots times notesPerChord notes |
| CoreBasslineGenerator.PatternLineAt | src/core/patternGenerator.js:196-209 | note i of chord c is where the grid puts it, with that chord's pitch |
| CoreBasslineGenerator.CandidatesMembers | src/core/patternGenerator.js:237-239 | the candidate intervals are exactly those keeping previous + interval within an octave of the chord's bass |
| CoreBasslineGenerator.CandidatesAll | src/core/patternGenerator.js:237-239 | when every interval qualifies, all are kept in order |
| CoreBasslineGenerator.PickIndex | src/core/patternGenerator.js:242 | a random draw picks an index inside a non-empty list |
| CoreBasslineGenerator.ChordWalk | src/core/patternGenerator.js:226-254 | one note per step of the chord |
| CoreBasslineGenerator.GenerateWalking | src/core/patternGenerator.js:214-258 | no roots give no notes; otherwise the notes are WalkLine of the roots, with the random draws as parameters |
| CoreBasslineGenerator.WalkChordNotes | src/core/patternGenerator.js:226-254 | the inner loop builds ChordWalk |
| CoreBasslineGenerator.ChordWalkAt | src/core/patternGenerator.js:226-254 | step i has WalkPitch, its grid start, velocity 100 on the first step and 80 after |
| CoreBasslineGenerator.WalkLineLength | src/core/patternGenerator.js:223-255 | roots times notesPerChord notes |
| CoreBasslineGenerator.WalkLineAt | src/core/patternGenerator.js:223-255 | note i of chord c has its walk pitch and grid start, and each chord starts on its root an octave down |
| CoreBasslineGenerator.WalkStepMoves | src/core/patternGenerator.js:236-252 | each step moves by one of the walking intervals, up or down |
| CoreBasslineGenerator.WalkLeavesOctave | src/core/patternGenerator.js:237-243 | as written, the filter tests the upward move only, so a downward move can leave the octave (60 walks down to 12) and an empty candidate list then gives NaN |
| CoreBasslineGenerator.WalkStepWithin | src/core/patternGenerator.js:237-243 | corrected, a step from within the octave stays within it and moves by a walking interval |
| CoreBasslineGenerator.WalkPitchWithin | src/core/patternGenerator.js:226-254 | corrected, every walk pitch stays within an octave of the chord's bass |
| CoreDrumPatternGenerator.KickAt | src/core/patternGenerator.js:299-306 | the kick check at one step emits that step's kick hit |
| CoreDrumPatternGenerator.SnareAt | src/core/patternGenerator.js:309-317 | the snare check at one step emits that step's snare hit |
| CoreDrumPatternGenerator.HihatAt | src/core/patternGenerator.js:320-327 | the hi-hat check at one step emits that step's hi-hat hit |
| CoreDrumPatternGenerator.GenerateBasicBeat | src/core/patternGenerator.js:277-331 | the beat holds the kick, snare and hi-hat notes over beats * division steps (defaults 4 and 4), every other voice empty |
| CoreDrumPatternGenerator.BeatNotesContents | src/core/patternGenerator.js:295-328 | a voice's notes are exactly its hits at the steps so far |
| CoreDrumPatternGenerator.KickOnBeats | src/core/patternGenerator.js:299-306 | a kick falls exactly on the steps that start a beat, always at velocity 100 |
| CoreDrumPatternGenerator.SnareOnBackbeats | src/core/patternGenerator.js:309-317 | a snare falls exactly on beats 2 and 4 in 4/4 or beat 3 in 3/4, at velocity 90 |
| CoreDrumPatternGenerator.HihatOnHalfBeats | src/core/patternGenerator.js:320-327 | a hi-hat falls exactly on the half-beat steps, 90 on the beat and 70 off it |
| CoreDrumPatternGenerator.BeatNotesBefore | src/core/patternGenerator.js:295-328 | every note lasts one step and starts before the steps so far end |
| CoreDrumPatternGenerator.BeatNotesAscending | src/core/patternGenerator.js:295-328 | each voice's notes start in strictly increasing order |
| CoreDrumPatternGenerator.TomChoice | src/core/patternGenerator.js:354-355 | the draw picks one of the three toms |
| CoreDrumPatternGenerator.TomVelocity | src/core/patternGenerator.js:361 | a tom's velocity lies in 80..99 |
| CoreDrumPatternGenerator.TomsAt | src/core/patternGenerator.js:353-363 | the tom check at one step emits that step's tom hits |
| CoreDrumPatternGenerator.FillSnareAt | src/core/patternGenerator.js:366-373 | the snare check at one step emits that step's snare hit |
| CoreDrumPatternGenerator.FillKickAt | src/core/patternGenerator.js:376-383 | the kick check at one step emits that step's kick hit |
| CoreDrumPatternGenerator.GenerateFill | src/core/patternGenerator.js:333-396 | the fill holds each voice's notes over bars * 16 steps (default one bar) and a crash at the end |
| CoreDrumPatternGenerator.FillNotesContents | src/core/patternGenerator.js:349-384 | a voice's fill notes are exactly its hits at the steps so far |
| CoreDrumPatternGenerator.OneTomPerEvenStep | src/core/patternGenerator.js:353-363 | every even step has exactly one tom hit, no odd step has any, and tom velocities lie in 80..99 |
| CoreDrumPatternGenerator.FillKickAndSnare | src/core/patternGenerator.js:366-383 | kicks fall exactly on the first and last step, snares on every third step |
| CoreDrumPatternGenerator.FillKicks | src/core/patternGenerator.js:376-383 | the kick track is the first step's kick, plus the last step's once the loop reaches it |
| CoreDrumPatternGenerator.FillTomCount | src/core/patternGenerator.js:353-363 | the toms together have one hit per even step |
| CoreDrumPatternGenerator.FillSnareCount | src/core/patternGenerator.js:366-373 | one snare per third step |
| CoreMidiSequence.NewTrack | src/core/midiSequence.js:31-43 | an unnamed track is called "Track n+1" after the n tracks before it; given fields win over the defaults instrument 0 and no notes |
| CoreMidiSequence.NewNote | src/core/midiSequence.js:62-68 | each given field wins (a given 0 included), and the defaults are pitch 60, start 0, duration 1, velocity 100 |
| CoreMidiSequence.FoldEndsIsMax | src/core/midiSequence.js:123-127 | the running maximum bounds every note's end and is either the start value or one of those ends |
| CoreMidiSequence.FoldTracksIsMax | src/core/midiSequence.js:120-130 | over all tracks the fold bounds every note's end and is 0 or one of those ends |
| CoreMidiSequence.MaxEndIsMax | src/core/midiSequence.js:120-130 | the recalculated duration is the greatest note end, or 0 for no notes |
| CoreMidiSequence.IsMaxEndUnique | src/core/midiSequence.js:120-130 | that value is unique |
| CoreMidiSequence.MaxEndAppend | src/core/midiSequence.js:71-77 | appending a note changes the maximum end to the larger of the old one and the note's end |
| CoreMidiSequence.MaxEndAppendTrack | src/core/midiSequence.js:45 | an empty new track leaves the maximum end alone |
| CoreMidiSequence.QuantizeNoteStart | src/core/midiSequence.js:140 | the quantized start is a multiple of the grid within half a grid of the original |
| CoreMidiSequence.QuantizeNoteDuration | src/core/midiSequence.js:143 | the quantized duration is a whole positive number of grid steps, and pitch and velocity are kept |
| CoreMidiSequence.QuantizeNoteIdempotent | src/core/midiSequence.js:139-143 | quantizing twice equals quantizing once |
| CoreMidiSequence.QuantizeTracksIdempotent | src/core/midiSequence.js:136-149 | quantizing every track twice equals quantizing once |
| CoreMidiSequence.TransposeZero | src/core/midiSequence.js:156 | transposing by 0 changes nothing |
| CoreMidiSequence.TransposeCompose | src/core/midiSequence.js:155-163 | transposing by a then b equals transposing by a + b |
| CoreMidiSequence.TransposeInverse | src/core/midiSequence.js:155-163 | transposing back by the negated amount restores the tracks |
| CoreMidiSequence.TransposeKeepsMaxEnd | src/core/midiSequence.js:155-163 | transposing leaves the maximum end unchanged |
| CoreMidiSequence.RowContents | src/core/midiSequence.js:180-196 | row i holds exactly the colliding pairs (i, j) with j below the inner bound |
| CoreMidiSequence.RowOrdered | src/core/midiSequence.js:180-196 | a row is in increasing order of its second index |
| CoreMidiSequence.PairsBelowContents | src/core/midiSequence.js:179-197 | the first rows hold exactly the colliding pairs whose first index is below the outer bound |
| CoreMidiSequence.PairsBelowFirst | src/core/midiSequence.js:179-197 | every such pair's first index is below the outer bound |
| CoreMidiSequence.PairsBelowOrdered | src/core/midiSequence.js:179-197 | the pairs are in lexicographic order |
| CoreMidiSequence.CollisionsAreThePairs | src/core/midiSequence.js:170-200 | the collisions are exactly the pairs i < j of same-pitch notes that overlap in time, each once and in lexicographic order |
| CoreMidiSequence.MidiSequence.constructor | src/core/midiSequence.js:15-24 | tempo 120, 4/4 and 480 ticks unless given (a given 0 counts as absent), one empty "Track 1" on piano, duration 0 |
| CoreMidiSequence.MidiSequence.AddTrack | src/core/midiSequence.js:31-47 | appends the new track and returns its index, leaving the rest alone; with no notes given the duration stays the maximum end |
| CoreMidiSequence.MidiSequence.AddNote | src/core/midiSequence.js:55-80 | an index outside the tracks fails and changes nothing; otherwise the note is appended to that track, returned, and the duration becomes the larger of the old duration and the note's end |
| CoreMidiSequence.MidiSequence.RemoveNote | src/core/midiSequence.js:88-106 | succeeds exactly for valid indices, then removes that one note and recalculates the duration; otherwise changes nothing |
| CoreMidiSequence.MidiSequence.GetDuration | src/core/midiSequence.js:112-114 | the stored duration is the greatest note end whenever the invariant holds |
| CoreMidiSequence.MidiSequence.RecalculateDuration | src/core/midiSequence.js:120-130 | the duration becomes the maximum end and nothing else changes |
| CoreMidiSequence.MidiSequence.QuantizeNotes | src/core/midiSequence.js:136-149 | every note is quantized to the grid (0.25 beats when omitted) and the duration recalculated; tempo, time signature and resolution unchanged |
| CoreMidiSequence.MidiSequence.Transpose | src/core/midiSequence.js:155-163 | every note's pitch moves by the semitones, the duration is kept |
| CoreMidiSequence.MidiSequence.FindNoteCollisions | src/core/midiSequence.js:170-200 | an unknown track gives no collisions; otherwise the collisions of that track's notes |
| CoreMidiExport.ConvertTimeToTicks | src/core/midiExport.js:72-75 | the tick count is within half a tick of time * 960 |
| CoreMidiExport.TimeTicksExact | src/core/midiExport.js:72-75 | a time that is a whole number of ticks converts to exactly that number |
| CoreMidiExport.TimeTicksMonotone | src/core/midiExport.js:72-75 | a later time never gets fewer ticks |
| CoreMidiExport.NamedDurations | src/core/midiExport.js:84-88 | 4, 2, 1, 0.5 and 0.25 beats map to the note-length codes 1, 2, 4, 8 and 16 |
| CoreMidiExport.DurationTicksDigits | src/core/midiExport.js:90-91 | any other non-negative duration is written as the decimal digits of its tick count |
| CoreMidiExport.ChannelList | src/core/midiExport.js:114 | each note's channel, with 0 for a missing or zero channel |
| CoreMidiExport.OfUnusedChannel | src/core/midiExport.js:113-121 | a channel no note uses collects no notes |
| CoreMidiExport.OfChannelContains | src/core/midiExport.js:113-121 | every note lands in its own channel's group |
| CoreMidiExport.GroupSizesAppend | src/core/midiExport.js:113-121 | one more note adds one to the group sizes exactly when its channel is counted |
| CoreMidiExport.GroupSizesUnused | src/core/midiExport.js:113-121 | unused channels have no notes |
| CoreMidiExport.GroupingPartition | src/core/midiExport.js:113-121 | over distinct channels covering every note the groups hold each note exactly once |
| CoreMidiExport.GroupingOfChannels | src/core/midiExport.js:113-121 | the channels in first-seen order partition the notes |
| CoreMidiExport.GroupedStep | src/core/midiExport.js:116-120 | filing one note keeps the map equal to the per-channel groups, adding its channel last when new |
| CoreMidiExport.ChannelsStep | src/core/midiExport.js:116-118 | the channel order grows only by a newly seen channel |
| CoreMidiExport.OfChannelStep | src/core/midiExport.js:120 | a note joins only its own channel's group, at the end |
| CoreMidiExport.ChannelMapGrouped | src/core/midiExport.js:110-121 | the finished map holds, for each channel in first-seen order, that channel's notes in order |
| CoreMidiExport.GroupByChannel | src/core/midiExport.js:110-121 | the loop builds the channel map |
| CoreMidiExport.NoteEvents | src/core/midiExport.js:26-35 | one note event per note, in order, on the given channel |
| CoreMidiExport.TrackEvents | src/core/midiExport.js:17-35 | a track gives a program change for its instrument (0 when falsy) followed by one note event per note, all on channel id mod 16 |
| CoreMidiExport.TrackChannelRange | src/core/midiExport.js:22 | a non-negative track id gives a channel in 0..15 |
| CoreMidiExport.TracksEvents | src/core/midiExport.js:16-38 | one event list per session track, in order |
| CoreMidiExport.SessionFile | src/core/midiExport.js:9-64 | the file holds every track's events, a tempo exactly when bpm is set and non-zero, and a time signature exactly for a two-element array |
| CoreMidiExport.TrackToEvents | src/core/midiExport.js:17-35 | the loop builds TrackEvents |
| CoreMidiExport.SessionToMidiFile | src/core/midiExport.js:9-64 | the loop builds SessionFile |
| CoreMidiExport.SessionTimeSignature | src/core/midiExport.js:103-105 | an array is kept; anything else becomes two numbers, 4/4 when absent |
| CoreMidiExport.ChannelTracks | src/core/midiExport.js:124-131 | one track per channel |
| CoreMidiExport.SequenceToMidiFile | src/core/midiExport.js:99-134 | the file is the session file of the adapted sequence, tempo 120 when missing |
| CoreMidiExport.BuildTracks | src/core/midiExport.js:124-131 | the loop builds ChannelTracks |
| CoreMidiExport.SequenceExportKeepsNotes | src/core/midiExport.js:99-134 | every note of the sequence appears as a note event in the track with id channel + 1 |
| CoreMidiExport.TrackHasNote | src/core/midiExport.js:26-35 | every note of a track appears among its events |
| CoreMidiExport.ChannelIndex | src/core/midiExport.js:113-131 | every note's channel is one of the tracked channels |
| MidiExporter.DurationToTicksContract | midi-exporter.js:99-108 | the chosen note value is the longest one not longer than the duration (for durations of at least a sixteenth), less than twice as short, and thirty-second exactly below a sixteenth |
| MidiExporter.NoteValueNamesDistinct | midi-exporter.js:102-107 | the six note-value codes are distinct |
| MidiExporter.DurationMonotone | midi-exporter.js:99-108 | a longer duration never gets a shorter note value |
| MidiExporter.ChannelList | midi-exporter.js:33 | each note's channel, with 0 for a missing or zero channel |
| MidiExporter.GroupOfContains | midi-exporter.js:32-38 | every note lands in its own channel's group |
| MidiExporter.GroupOfChannel | midi-exporter.js:32-38 | a group holds only notes of its channel |
| MidiExporter.GroupOfSubset | midi-exporter.js:32-38 | a group holds only notes of the sequence |
| MidiExporter.ChannelNotesGroup | midi-exporter.js:30-38 | the object built by the loop maps each channel to its notes in order |
| MidiExporter.ChannelNotesKeys | midi-exporter.js:30-38 | its keys are the channels in first-seen order, each once |
| MidiExporter.GroupNotes | midi-exporter.js:30-38 | the loop builds that object |
| MidiExporter.ProgramChangeFor | midi-exporter.js:42-53 | each channel's program change is on channel number + 1, a 1-based MIDI channel for 0..15 |
| MidiExporter.NoteEventFields | midi-exporter.js:59-78 | a note event keeps the pitch, is on channel + 1, has velocity 100 when missing and never 0, and has a delta exactly for a positive start, within half a tick of start * 128 |
| MidiExporter.NoteEvents | midi-exporter.js:59-79 | one event per note |
| MidiExporter.NoteEventsAt | midi-exporter.js:59-79 | event k is note k's event |
| MidiExporter.BlockList | midi-exporter.js:41-80 | one block of events per channel entry |
| MidiExporter.BlockListAt | midi-exporter.js:41-80 | block j is the block of the j-th channel entry |
| MidiExporter.BlockListSnoc | midi-exporter.js:41-80 | one more entry appends one more block |
| MidiExporter.ConcatSnoc | midi-exporter.js:41-80 | adding a block appends its events to the track |
| MidiExporter.ConcatContains | midi-exporter.js:41-80 | an event of any block is an event of the track |
| MidiExporter.ChannelBlockShape | midi-exporter.js:45-79 | a channel's block is its program change followed by its notes' events sorted by start time |
| MidiExporter.BlockMovesForward | midi-exporter.js:56-79 | within a block the note events' start ticks never decrease |
| MidiExporter.Header | midi-exporter.js:19-25 | the track opens with a non-zero tempo, 120 by default, then a time signature exactly when one is given |
| MidiExporter.SequenceExportKeepsNotes | midi-exporter.js:13-92 | every note of the sequence appears as an event on its channel |
| MidiExporter.NoteInBlock | midi-exporter.js:59-79 | every note of a group appears in its channel's block |
| MidiExporter.BlockNotesOfChannel | midi-exporter.js:56-79 | every sorted note of a block is a note of the sequence on that channel |
| MidiExporter.ChannelToEvents | midi-exporter.js:45-79 | the loop builds the channel's block |
| MidiExporter.NotesToEvents | midi-exporter.js:59-79 | the loop builds the note events |
| MidiExporter.NotesToTrack | midi-exporter.js:28-81 | the events are the blocks of the channels in object-key order |
| MidiExporter.EntriesToEvents | midi-exporter.js:41-80 | the loop concatenates the blocks of the entries |
| MidiExporter.SequenceToMidiFile | midi-exporter.js:13-92 | the track is the header followed by the channel blocks |
| FixedPatterns.BlockContract | fixed-patterns.js:26-34 | one note per chord pitch, all at the same time, duration, velocity and channel |
| FixedPatterns.BlockChunk | fixed-patterns.js:26-34 | the loop builds the chord's block |
| FixedPatterns.WithinConcat | fixed-patterns.js:12-39 | notes within consecutive time windows stay within their union |
| FixedPatterns.SortedConcat | fixed-patterns.js:12-39 | sorted notes in consecutive windows stay sorted when joined |
| FixedPatterns.CreateChordProgression | fixed-patterns.js:6-40 | a non-array progression gives no notes; otherwise the notes of every usable chord, in order |
| FixedPatterns.ProgressionNotesCount | fixed-patterns.js:15-37 | one note per pitch of every chord that has notes |
| FixedPatterns.ChordBlockContract | fixed-patterns.js:21-34 | a usable chord's notes start at the sum of the earlier usable chords' rhythm values, last its rhythm value (cycling the pattern, 4 when empty), velocity 80, channel 0 |
| FixedPatterns.ProgressionNotesFrom | fixed-patterns.js:15-37 | every note comes from a pitch of one usable chord, at that chord's time |
| FixedPatterns.ProgressionNotesCover | fixed-patterns.js:15-37 | every pitch of every usable chord is played at that chord's time |
| FixedPatterns.BassRhythm | fixed-patterns.js:43-58 | the rhythm is never empty (1, 0.5, 0.5 by default or when not a non-empty array) |
| FixedPatterns.CreateBassline | fixed-patterns.js:43-83 | a non-array progression gives the fixed fallback of two notes; otherwise the runs of every usable chord |
| FixedPatterns.RunChunk | fixed-patterns.js:70-79 | the inner loop builds the run and advances the time by the rhythm's sum |
| FixedPatterns.RunContract | fixed-patterns.js:70-79 | note k of a run is the root at the start plus the first k durations, lasting duration k, velocity 90, channel 1 |
| FixedPatterns.BassNotesCount | fixed-patterns.js:60-80 | the rhythm's length times the number of chords that have notes |
| FixedPatterns.BassNotesFrom | fixed-patterns.js:60-80 | every bass note is some usable chord's first note an octave down, velocity 90 on channel 1, lasting a rhythm value |
| FixedPatterns.RunShape | fixed-patterns.js:70-79 | every note of a run is the root at velocity 90 on channel 1 |
| FixedPatterns.PatternFor | fixed-patterns.js:99-118 | every pattern, including the basic fallback for an unknown name, has eight steps per voice |
| FixedPatterns.CreateDrumPattern | fixed-patterns.js:86-164 | the notes are the measures of the chosen pattern, basic and 2 measures by default |
| FixedPatterns.DrumMeasure | fixed-patterns.js:125-160 | the inner loop builds one measure |
| FixedPatterns.CountHits | fixed-patterns.js:129-151 | a step count never exceeds the steps seen |
| FixedPatterns.MeasureNotesCount | fixed-patterns.js:125-160 | a measure has one note per set step of each voice |
| FixedPatterns.DrumNotesCount | fixed-patterns.js:121-161 | the pattern's hits per measure times the measures |
| FixedPatterns.BasicHits | fixed-patterns.js:100-118 | the basic pattern, and any unknown name, has 8 hits per measure |
| FixedPatterns.RockHits | fixed-patterns.js:105-109 | the rock pattern has 14 hits per measure |
| FixedPatterns.FunkHits | fixed-patterns.js:110-114 | the funk pattern has 13 hits per measure |
| FixedPatterns.DrumVoicesConcat | fixed-patterns.js:128-159 | joining drum notes keeps them drum notes |
| FixedPatterns.SlotNotesShape | fixed-patterns.js:126-159 | one step's notes are kick, snare or hi-hat on channel 9, all at that step's time |
| FixedPatterns.MeasureNotesShape | fixed-patterns.js:125-160 | a measure's notes are drum notes sorted by start, within the measure's steps |
| FixedPatterns.DrumNotesShape | fixed-patterns.js:121-161 | all drum notes are sorted by start and begin before the last step of the last measure |
| FixedPatterns.ExpandedContract | fixed-patterns.js:181-186 | pitch i of the expansion is chord note i mod n raised by i div n octaves |
| FixedPatterns.OctaveChunk | fixed-patterns.js:183-185 | the inner loop raises every chord note by the shift |
| FixedPatterns.ExpandOctaves | fixed-patterns.js:181-186 | the loop builds the expansion |
| FixedPatterns.ArpPatternPermutes | fixed-patterns.js:190-205 | except for updown the pattern is a permutation of the pitches, ascending for up and unknown names, descending for down |
| FixedPatterns.DescentContract | fixed-patterns.js:196 | the descending tail omits the top pitch and lists the rest from the top down |
| FixedPatterns.UpDownShape | fixed-patterns.js:194-198 | updown plays 2n - 1 pitches, up through the sorted pitches and back down without repeating the top |
| FixedPatterns.AdvanceIsMultiple | fixed-patterns.js:217 | k steps after t the time is t + k * duration |
| FixedPatterns.CreateArpeggio | fixed-patterns.js:167-222 | a missing or empty chord gives the C-major fallback; otherwise the pattern repeated, one note per step with the defaults up, 1 octave, 0.25, start 0 and 1 repeat |
| FixedPatterns.ArpLoop | fixed-patterns.js:208-219 | the loops build the repeated pattern's notes |
| FixedPatterns.CycleShift | fixed-patterns.js:208-219 | after whole passes the pattern starts over |
| FixedPatterns.ArpNotesAt | fixed-patterns.js:208-219 | the k-th note's pitch is the pattern cycled at k |
| FixedPatterns.ArpNotesContract | fixed-patterns.js:208-219 | note k plays pattern pitch k mod n at start + k * duration, velocity 80, channel 0 |
| FixedPatterns.AbsSum | fixed-patterns.js:267 | the time advanced by a pass is never negative |
| FixedPatterns.EmitContract | fixed-patterns.js:243-264 | a rest (duration at most 0) gives no notes; otherwise one note per pitch of the entry, a chord or a single pitch, at the current time |
| FixedPatterns.EmitTimes | fixed-patterns.js:255-263 | all notes of one step start together |
| FixedPatterns.PassStart | fixed-patterns.js:236-269 | no pass starts before the start time |
| FixedPatterns.PassStartIsMultiple | fixed-patterns.js:236-269 | pass r starts r times the absolute sum of the values after the start |
| FixedPatterns.CreateRhythmicPattern | fixed-patterns.js:225-272 | a missing or empty argument gives the two-note fallback; otherwise every pass's notes, start 0 and 1 repeat by default |
| FixedPatterns.RhythmicPass | fixed-patterns.js:239-268 | one pass's notes, and the time advanced by the absolute value of every duration |
| FixedPatterns.DurationChunk | fixed-patterns.js:243-264 | the step's notes for the cycled pitch entry |
| FixedPatterns.PassNotesWithin | fixed-patterns.js:239-268 | a pass's notes start within the pass |
| FixedPatterns.PassNotesSorted | fixed-patterns.js:239-268 | a pass's notes are sorted by start |
| FixedPatterns.RhythmicNotesTimes | fixed-patterns.js:238-269 | all notes are sorted by start and begin before the last pass ends |
| FixedPatterns.PassNotesOfRests | fixed-patterns.js:242-243 | a pass of rests gives no notes |
| ServerSequence.MidiNoteJson | src/server/models/sequence.js:14-22 | a note's JSON carries all five fields, velocity and channel present |
| ServerSequence.NoteFromJson | src/server/models/sequence.js:103-111 | the rebuilt note keeps pitch, start and duration and falls back to velocity 80 and channel 0 for falsy values |
| ServerSequence.NoteRoundTrip | src/server/models/sequence.js:103-111 | a note with non-zero velocity survives toJSON and the rebuild unchanged |
| ServerSequence.NewSequence | src/server/models/sequence.js:27-34 | a new sequence has no notes and takes each truthy option, else id generated, "Untitled Sequence", 4/4, 120 and "C major" |
| ServerSequence.KeptContents | src/server/models/sequence.js:52-54 | exactly the truthy elements are added |
| ServerSequence.KeptAllSome | src/server/models/sequence.js:52-54 | when every element is a note all are added in order |
| ServerSequence.AddedNotes | src/server/models/sequence.js:41-56 | a non-array argument adds nothing; an array adds its truthy elements at the end, in order |
| ServerSequence.SequenceToJson | src/server/models/sequence.js:63-72 | the JSON keeps every field and writes each note through toJSON when it has one, as is otherwise |
| ServerSequence.NotesToJson | src/server/models/sequence.js:70 | one JSON note per note, in order |
| ServerSequence.NotesFromJson | src/server/models/sequence.js:103-111 | succeeds exactly when no element is null, then rebuilds each note; a failure names a null element |
| ServerSequence.FromJson | src/server/models/sequence.js:75-125 | a non-object input fails; the metadata takes each truthy field, else generated id, "Imported Sequence", 4/4, 120 and "C major"; notes that are not an array give none |
| ServerSequence.JsonObject | src/server/models/sequence.js:63-90 | a sequence's JSON read back as an object is not nested and holds every note |
| ServerSequence.SomeEach | src/server/models/sequence.js:70 | every written note is present |
| ServerSequence.FromJsonRoundTrip | src/server/models/sequence.js:63-125 | exporting then importing keeps the truthy metadata and every note's pitch, start, duration and channel, and its velocity when non-zero |
| ServerSequence.FromJsonRoundTripExact | src/server/models/sequence.js:63-125 | a sequence of note objects with non-zero velocities and truthy metadata survives the round trip exactly |
| ServerSequence.MidiSequence.constructor | src/server/models/sequence.js:27-34 | the new object's fields are NewSequence of the options |
| ServerSequence.MidiSequence.AddNote | src/server/models/sequence.js:36-39 | appends the note and changes nothing else |
| ServerSequence.MidiSequence.AddNotes | src/server/models/sequence.js:41-56 | appends AddedNotes of the argument and changes nothing else |
| ServerSequence.MidiSequence.Clear | src/server/models/sequence.js:58-61 | empties the notes and changes nothing else |
| ServerSequence.MidiSequence.FromJsonObject | src/server/models/sequence.js:75-125 | fails with FromJson's error, or gives a fresh sequence holding FromJson's result |
| ServerSequence.SomeItems | src/server/models/sequence.js:52-54 | every note is present |
| ServerTheoryApi.MatchAt | src/server/api/musicTheory.js:17-20 | a match at a position is a letter A-G, an optional flat or sharp, then the octave digit, read off the string itself |
| ServerTheoryApi.FirstMatch | src/server/api/musicTheory.js:17-20 | the first match found is a note shape with a single-digit octave |
| ServerTheoryApi.NoMatchWithoutDigit | src/server/api/musicTheory.js:17-21 | a name without a digit is not split, so the given octave is used |
| ServerTheoryApi.TableNameHasNoDigit | src/server/api/musicTheory.js:7-11 | no note-table name contains a digit |
| ServerTheoryApi.ReadNoteWithDigit | src/server/api/musicTheory.js:17-21 | a table name followed by a digit is read as that name and octave |
| ServerTheoryApi.GetMidiNoteIsTable | src/server/api/musicTheory.js:6-28 | success is 12 + 12 * octave + the table's semitone for the note read; failure is the invalid-name error for a note not in the table |
| ServerTheoryApi.GetMidiNoteOfName | src/server/api/musicTheory.js:6-28 | a bare table name gives 12 + 12 * octave + its semitone |
| ServerTheoryApi.GetMidiNoteOfNameAndOctave | src/server/api/musicTheory.js:6-28 | a table name with an octave digit gives 12 + 12 * digit + its semitone, whatever octave is passed |
| ServerTheoryApi.GetMidiNoteRejects | src/server/api/musicTheory.js:23-25 | a digit-free name outside the table throws the invalid-name error |
| ServerTheoryApi.ReadNoteTwice | src/server/api/musicTheory.js:72-126 | splitting the root first and passing the parts gives the same number as passing the root |
| ServerTheoryApi.NoteNameFromMidi | src/server/api/musicTheory.js:57-62 | the name is never empty ("undefined" for the missing entry of a negative number) |
| ServerTheoryApi.NameOfPitch | src/server/api/musicTheory.js:57-62 | octaves 0 to 9 are named by the sharp name of the pitch class and the octave digit |
| ServerTheoryApi.NameOfMidiNote | src/server/api/musicTheory.js:6-62 | naming a table note's number gives the sharp spelling of its semitone and the same octave |
| ServerTheoryApi.SharpNameRoundTrip | src/server/api/musicTheory.js:6-62 | a sharp-spelled name with an octave digit names itself back |
| ServerTheoryApi.PatternTables | src/server/api/musicTheory.js:31-54 | every scale and chord pattern starts at 0 and rises strictly within an octave |
| ServerTheoryApi.NamesFromMidi | src/server/api/musicTheory.js:91 | one name per number |
| ServerTheoryApi.VoicePatternContract | src/server/api/musicTheory.js:65-144 | a voicing fails exactly when the root does, with its error; otherwise the numbers are root plus each interval and the names are those numbers' names |
| ServerTheoryApi.GenerateScaleUnknown | src/server/api/musicTheory.js:79-82 | a scale type not in the table, in any case, is an unknown-scale error |
| ServerTheoryApi.GenerateChordUnknown | src/server/api/musicTheory.js:120-123 | a chord type not in the table, in any case, is an unknown-chord error |
| ServerTheoryApi.VoicingClimbs | src/server/api/musicTheory.js:88-129 | a voicing of a rising pattern rises from the root within an octave |
| ServerTheoryApi.ScalePatternShape | src/server/api/musicTheory.js:31-41 | every scale pattern is rising within an octave |
| ServerTheoryApi.ChordPatternShape | src/server/api/musicTheory.js:44-54 | every chord pattern is rising within an octave |
| ServerTheoryApi.GenerateScaleClimbs | src/server/api/musicTheory.js:65-103 | a known scale succeeds exactly when the root is valid, rising from the root |
| ServerTheoryApi.GenerateChordClimbs | src/server/api/musicTheory.js:106-144 | a known chord succeeds exactly when the root is valid, rising from the root |
| ServerTheoryApi.IntervalClass | src/server/api/musicTheory.js:193-194 | the interval class lies in 0..11 |
| ServerTheoryApi.IntervalClassIsRemainder | src/server/api/musicTheory.js:193-194 | the corrected JavaScript remainder equals the mathematical remainder mod 12 |
| ServerTheoryApi.MatchesIsEquality | src/server/api/musicTheory.js:201-205 | the size-and-subset comparison holds exactly when the pattern's set equals the interval set |
| ServerTheoryApi.PatternFrom | src/server/api/musicTheory.js:199-212 | a found pattern lies at or after the starting position |
| ServerTheoryApi.RootPattern | src/server/api/musicTheory.js:191-212 | a pattern found for a root is a table entry |
| ServerTheoryApi.RootPatterns | src/server/api/musicTheory.js:190-215 | one result per candidate root |
| ServerTheoryApi.ChordFrom | src/server/api/musicTheory.js:190-215 | the chord found names a root position whose pattern was found |
| ServerTheoryApi.RootLabel | src/server/api/musicTheory.js:207-218 | the root label is a single letter |
| ServerTheoryApi.MatchPattern | src/server/api/musicTheory.js:199-212 | the inner loop finds the first matching pattern |
| ServerTheoryApi.AnalyzeChord | src/server/api/musicTheory.js:169-226 | the loops compute the analysis |
| ServerTheoryApi.PatternFromFirst | src/server/api/musicTheory.js:199-212 | a found pattern matches and no earlier pattern does |
| ServerTheoryApi.PatternFromNone | src/server/api/musicTheory.js:199-212 | when none is found no pattern matches |
| ServerTheoryApi.PatternFromOfFirst | src/server/api/musicTheory.js:199-212 | the first matching pattern is the one found |
| ServerTheoryApi.PatternFromOfNone | src/server/api/musicTheory.js:199-212 | when no pattern matches none is found |
| ServerTheoryApi.PatternFromIsFirst | src/server/api/musicTheory.js:191-212 | for a root, the first identifying pattern is found |
| ServerTheoryApi.PatternFromIsNone | src/server/api/musicTheory.js:191-212 | for a root no pattern is found when none identifies it |
| ServerTheoryApi.ChordFromOfFirst | src/server/api/musicTheory.js:190-215 | the first root with a pattern is the one reported |
| ServerTheoryApi.ChordFromOfNone | src/server/api/musicTheory.js:190-215 | no chord is reported when no root has a pattern |
| ServerTheoryApi.AnalyzeRejects | src/server/api/musicTheory.js:173-175 | the analysis fails exactly for a non-array or fewer than two notes, with "Invalid notes array" |
| ServerTheoryApi.AnalyzeNamesSortedNotes | src/server/api/musicTheory.js:178-221 | the reported notes are the names of the notes in ascending order |
| ServerTheoryApi.AnalyzeIdentifies | src/server/api/musicTheory.js:190-215 | the first root (in ascending order) with a matching pattern, and its first pattern, give the type, the root letter and the position reported as the inversion |
| ServerTheoryApi.AnalyzeUnknown | src/server/api/musicTheory.js:184-222 | with no match the type is "unknown", inversion 0 and the root the lowest note's letter |
| ServerTheoryApi.RootLabelIsLetter | src/server/api/musicTheory.js:207 | the label is the first letter of the sharp name, a letter A-G |
| ServerTheoryApi.FirstInversionReportedAsSecond | src/server/api/musicTheory.js:190-210 | as written, E G C is reported as C major in inversion 2, the position of the root in the sorted notes, though its bass is the third (first inversion) |
| ServerTheoryApi.BassInversion | src/server/api/musicTheory.js:209 | corrected, the inversion is the position of the bass among the pattern's tones |
| ServerTheoryApi.BassInversionNamesTheBass | src/server/api/musicTheory.js:209 | corrected, the inversion's pattern tone is the bass's interval above the root |
| ServerTheoryRoutes.PitchClassNameSpelling | src/server/routes/musicTheoryRoutes.js:19-22 | a number outside 0..127 fails; 12..127 are named by their sharp pitch-class name; 0..11 keep the "-" of octave -1 |
| ServerTheoryRoutes.PitchClassNameHasNoDigit | src/server/routes/musicTheoryRoutes.js:19-22 | a name with its octave removed has no digit |
| ServerTheoryRoutes.PitchClassNamesDiffer | src/server/routes/musicTheoryRoutes.js:19-22 | numbers of different pitch classes get different names |
| ServerTheoryRoutes.NoteNamesDistinct | src/server/routes/musicTheoryRoutes.js:19-22 | the twelve sharp names are distinct |
| ServerTheoryRoutes.DashedNamesDistinct | src/server/routes/musicTheoryRoutes.js:19-22 | distinct names stay distinct with the octave dash |
| ServerTheoryRoutes.DashedNameIsNoName | src/server/routes/musicTheoryRoutes.js:19-22 | a dashed name is never a plain pitch-class name |
| ServerTheoryRoutes.NamesOf | src/server/routes/musicTheoryRoutes.js:19-22 | one name per number |
| ServerTheoryRoutes.NamesOfContract | src/server/routes/musicTheoryRoutes.js:19-22 | naming succeeds exactly when every number is a MIDI number, each then named by its pitch class |
| ServerTheoryRoutes.NamesOfAt | src/server/routes/musicTheoryRoutes.js:19-22 | each name is its number's pitch-class name |
| ServerTheoryRoutes.NotesResponseOfVoicing | src/server/routes/musicTheoryRoutes.js:10-64 | a handler fails exactly when the core does, with its error; otherwise it echoes root, type and octave and names each of the core's numbers |
| ServerTheoryRoutes.ScaleRouteContract | src/server/routes/musicTheoryRoutes.js:10-34 | the scale handler fails exactly when the core's scale does and otherwise returns its numbers, one name each |
| ServerTheoryRoutes.ChordRouteContract | src/server/routes/musicTheoryRoutes.js:40-64 | the chord handler fails exactly when the core's chord does and otherwise returns its numbers, one name each |
| ServerTheoryRoutes.ResponseNoteAt | src/server/routes/musicTheoryRoutes.js:19-52 | each reported name is the sharp pitch-class name of its number, dashed below 12 |
| ServerTheoryRoutes.NumeralArray | src/server/routes/musicTheoryRoutes.js:73-77 | the numerals, 'I-IV-V-I' by default, split on '-' into at least one numeral |
| ServerTheoryRoutes.ProgressionRoute | src/server/routes/musicTheoryRoutes.js:70-106 | fails with the core's scale or chord error; otherwise one entry per numeral, echoing key, mode, numerals and octave |
| ServerTheoryRoutes.FormatChordsContract | src/server/routes/musicTheoryRoutes.js:83-94 | every entry is tagged with its numeral, holds the core's chord and names all its notes |
| ServerTheoryRoutes.NumeralChordInRange | src/server/routes/musicTheoryRoutes.js:80-87 | every progression chord note is a MIDI number, so naming never fails |
| ServerTheoryRoutes.DegreeChordInRange | src/server/routes/musicTheoryRoutes.js:80 | every degree chord note is a MIDI number |
| ServerTheoryRoutes.KeySignatureRouteMode | src/server/routes/musicTheoryRoutes.js:112-123 | outside the fixed table the handler fails exactly for a mode other than major or minor, or a minor key whose root is not a note |
| ServerTheoryRoutes.ClassifyByShape | src/server/routes/musicTheoryRoutes.js:158-185 | a type is reported exactly when the intervals above the lowest note are its shape, and unknown when they are no type's shape |
| ServerTheoryRoutes.KindsAreCoreChords | src/server/routes/musicTheoryRoutes.js:158-185 | every recognized shape is the core's chord table entry of the same name |
| ServerTheoryRoutes.Intervals | src/server/routes/musicTheoryRoutes.js:153-156 | one interval per note above the lowest |
| ServerTheoryRoutes.RemoveDigits | src/server/routes/musicTheoryRoutes.js:191-196 | stripping drops every digit |
| ServerTheoryRoutes.RemoveDigitsOfPlain | src/server/routes/musicTheoryRoutes.js:191-196 | a digit-free name is kept as is |
| ServerTheoryRoutes.IntervalsAboveLowest | src/server/routes/musicTheoryRoutes.js:153-156 | the loop builds the intervals above the lowest note |
| ServerTheoryRoutes.AnalyzeChord | src/server/routes/musicTheoryRoutes.js:129-212 | the handler computes the analysis |
| ServerTheoryRoutes.AnalyzeErrors | src/server/routes/musicTheoryRoutes.js:133-144 | fewer than three notes or a non-array fail with the too-few error; otherwise it fails exactly when some note is not a MIDI number |
| ServerTheoryRoutes.AnalyzeSortsNotes | src/server/routes/musicTheoryRoutes.js:137-208 | the reported notes are the input sorted ascending (a permutation) with their names, and the type is the classification of their intervals |
| ServerTheoryRoutes.AnalyzeKnownKind | src/server/routes/musicTheoryRoutes.js:158-185 | a recognized chord is its lowest note plus the core chord pattern of that type |
| ServerTheoryRoutes.ShapedNotes | src/server/routes/musicTheoryRoutes.js:158-185 | notes classified as a type are the lowest note plus that type's shape |
| ServerTheoryRoutes.AnalyzeNeverInverts | src/server/routes/musicTheoryRoutes.js:187-200 | the inversion is always 0 and the root the lowest note's name: a major chord recognized by its intervals above the lowest note has no note above it of the bass's pitch class, so neither inversion test fires |
| ServerTheoryRoutes.OtherPitchClass | src/server/routes/musicTheoryRoutes.js:191-196 | a note 1 to 11 semitones up is of another pitch class |
| ServerTheoryRoutes.MajorTriadNamesDiffer | src/server/routes/musicTheoryRoutes.js:189-200 | in a recognized major triad neither upper note is named like the bass |
| ServerTheoryRoutes.NoteAboveLowestNamedApart | src/server/routes/musicTheoryRoutes.js:191-196 | a note less than an octave above the lowest is named differently from it |
| ServerTheoryRoutes.InvertedTriadsUnrecognized | src/server/routes/musicTheoryRoutes.js:158-200 | both inversions of a major triad from MIDI 12 up are analysed as an unknown chord on the bass note with inversion 0 (E-G-C gives root E) |
| ServerTheoryRoutes.IntendedNamesInversions | src/server/routes/musicTheoryRoutes.js:187-200 | with the inversion tests as intended, the first and second inversions of the major triad on r are major chords on r's pitch class with inversion 1 and 2 (E-G-C is C major, inversion 1) |
| ServerTheoryRoutes.AnalyzeIntendedExtends | src/server/routes/musicTheoryRoutes.js:129-212 | the intended analysis fails exactly when the handler does, and answers as the handler does on every chord other than the two inverted major shapes |
| RootTheoryRoutes.OctaveDigit | routes/musicTheoryRoutes.js:26-29 | a key split off its octave ends in a digit |
| RootTheoryRoutes.ScaleRoot | routes/musicTheoryRoutes.js:20-40 | the root is a number between 12 and 131 |
| RootTheoryRoutes.ScaleRootOfNoteAndOctave | routes/musicTheoryRoutes.js:26-40 | a table name with an octave digit has root 12 * (octave + 1) + its semitone |
| RootTheoryRoutes.ScaleRootOfNote | routes/musicTheoryRoutes.js:20-40 | a bare table name is in octave 4 |
| RootTheoryRoutes.ScaleRootUnknown | routes/musicTheoryRoutes.js:20-40 | an unknown key without octave falls back to 60 |
| RootTheoryRoutes.ScaleIntervals | routes/musicTheoryRoutes.js:7-43 | an unknown scale type falls back to major; every scale starts at 0 |
| RootTheoryRoutes.ScaleRows | routes/musicTheoryRoutes.js:7-17 | every scale starts at 0 and stays within an octave |
| RootTheoryRoutes.Names | routes/musicTheoryRoutes.js:50-54 | one name per number |
| RootTheoryRoutes.Transposed | routes/musicTheoryRoutes.js:46 | one number per interval |
| RootTheoryRoutes.ScaleIntervalsNonNegative | routes/musicTheoryRoutes.js:7-43 | every interval lies in 0..11 |
| RootTheoryRoutes.GetScaleNotesContract | routes/musicTheoryRoutes.js:5-57 | note i is the root plus interval i, named by its sharp name and octave |
| RootTheoryRoutes.FirstScaleNote | routes/musicTheoryRoutes.js:5-57 | the scale starts on the root |
| RootTheoryRoutes.MidiNameOfPitch | routes/musicTheoryRoutes.js:50-54 | a number in octaves 0..9 is named by its sharp pitch-class name and octave digit |
| RootTheoryRoutes.ScaleStartsAtKey | routes/musicTheoryRoutes.js:5-57 | a sharp-spelled key with octave starts the scale on its own number |
| RootTheoryRoutes.ScaleNamesItsKey | routes/musicTheoryRoutes.js:5-57 | and the scale's first name is the key itself |
| RootTheoryRoutes.FlatKeysReadAsSharps | routes/musicTheoryRoutes.js:32-54 | a Bb key's first note is named A# in the same octave |
| RootTheoryRoutes.ChordIntervals | routes/musicTheoryRoutes.js:75-88 | an unknown chord type falls back to major |
| RootTheoryRoutes.ChordRoute | routes/musicTheoryRoutes.js:71-99 | the chord is the key's root (the major scale's first note) plus each interval, echoing key and type |
| RootTheoryRoutes.AnalyzeChord | routes/musicTheoryRoutes.js:102-115 | fails exactly when no notes are sent; otherwise always C major, inversion 1 exactly when `notes[0]` is the number 64, for an array and for any other value (an object with property "0" equal to 64) |
| ServerSessionService.GeneratedSessionId | src/server/services/sessionService.js:22 | the generated session id is never empty |
| ServerSessionService.NewSession | src/server/services/sessionService.js:28-37 | a new session has the id, no sequences and no current sequence, and takes each truthy field, else "Untitled Session", 120 bpm, [4, 4] and no tracks |
| ServerSessionService.GetSession | src/server/services/sessionService.js:56-67 | an empty id throws "Session ID is required"; otherwise null exactly for an unknown id, and the stored session for a known one |
| ServerSessionService.AllSessions | src/server/services/sessionService.js:47-49 | every session, in insertion order |
| ServerSessionService.Assign | src/server/services/sessionService.js:86 | each field given in the update replaces the session's field, the others are kept |
| ServerSessionService.AssignIdempotent | src/server/services/sessionService.js:86 | assigning the same update twice equals assigning it once, and an empty update changes nothing |
| ServerSessionService.FindSession | src/server/services/sessionService.js:112-163 | found exactly for a non-empty known id; the id-required error for an empty id and not-found for an unknown one |
| ServerSessionService.NewSequence | src/server/services/sessionService.js:117-126 | a new sequence takes each truthy field, else the generated id, "Untitled Sequence", no notes, the session's time signature and bpm, and "C major" |
| ServerSessionService.GetSequence | src/server/services/sessionService.js:140-151 | fails exactly when the session lookup fails; otherwise the stored sequence, or null for an unknown sequence id |
| ServerSessionService.CurrentSequenceId | src/server/services/sessionService.js:165 | a current id is reported only when it is non-empty and names a stored sequence |
| ServerSessionService.CreateSessionContract | src/server/services/sessionService.js:21-41 | keeps the store consistent; fails exactly for an existing id and then changes nothing; otherwise stores the new session last in order, retrievable by its id |
| ServerSessionService.UpdateSessionContract | src/server/services/sessionService.js:75-90 | keeps the ids and order; an unknown id changes nothing; otherwise only that session changes, to the assigned update, which is returned |
| ServerSessionService.DeleteSessionContract | src/server/services/sessionService.js:97-103 | reports whether the id was present, removes it and keeps every other session |
| ServerSessionService.CreateThenDelete | src/server/services/sessionService.js:97-103 | deleting a session just created restores the store |
| ServerSessionService.CreateSequenceContract | src/server/services/sessionService.js:111-132 | fails exactly when the session lookup does and then changes nothing; otherwise stores the new sequence, makes it current and changes no other session |
| ServerSessionService.AddNotesContract | src/server/services/sessionService.js:159-173 | a session without a current sequence fails with "No current sequence selected"; success appends the notes to the current sequence, returns it and changes nothing else |
| ServerSessionService.AddNotesTwice | src/server/services/sessionService.js:159-173 | adding a then b equals adding a + b |
| ServerSessionService.SessionService.constructor | src/server/services/sessionService.js:9-14 | the service starts with an empty store |
| ServerSessionService.SessionService.CreateSession | src/server/services/sessionService.js:21-41 | the new state and result are CreateSessionStep's |
| ServerSessionService.SessionService.UpdateSession | src/server/services/sessionService.js:75-90 | the new state and result are UpdateSessionStep's |
| ServerSessionService.SessionService.DeleteSession | src/server/services/sessionService.js:97-103 | the new state and result are DeleteSessionStep's |
| ServerSessionService.SessionService.CreateSequence | src/server/services/sessionService.js:111-132 | the new state and result are CreateSequenceStep's |
| ServerSessionService.SessionService.AddNotes | src/server/services/sessionService.js:159-173 | the new state and result are AddNotesStep's |
| TransportService.Tempo | src/client/services/transportService.js:54 | the tempo is clamped into 40..240: kept inside, raised to 40 below, lowered to 240 above |
| TransportService.TempoIdempotent | src/client/services/transportService.js:54 | clamping twice equals clamping once |
| TransportService.Position | src/client/services/transportService.js:90 | a position is never negative: a non-negative tick is kept, a negative one becomes 0 |
| TransportService.MergeLoop | src/client/services/transportService.js:70-75 | each given loop field replaces the old one, the others are kept |
| TransportService.MergeLoopEmpty | src/client/services/transportService.js:70-75 | merging no fields changes nothing |
| TransportService.MergeLoopIdempotent | src/client/services/transportService.js:70-75 | merging the same fields twice equals merging once |
| TransportService.MergeLoopCompose | src/client/services/transportService.js:70-75 | merging p then q equals merging p overridden by q |
| TransportService.Advance | src/client/services/transportService.js:146-155 | the next tick is one more, or the loop start when a loop is on and the end is reached |
| TransportService.AdvanceNoLoop | src/client/services/transportService.js:146-155 | without a loop, n steps add n |
| TransportService.AdvanceStaysInLoop | src/client/services/transportService.js:146-155 | from inside an enabled loop, the position stays inside it |
| TransportService.AdvanceCycles | src/client/services/transportService.js:146-155 | from the loop start, n steps land on start + n mod the loop length |
| TransportService.Subscribed | src/client/services/transportService.js:98-102 | a function not yet listening is appended; anything else leaves the listeners alone |
| TransportService.Unsubscribed | src/client/services/transportService.js:108-110 | exactly the listeners other than the callback remain |
| TransportService.SubscribedNoDuplicates | src/client/services/transportService.js:98-102 | subscribing never makes a listener appear twice, and a function is then listening |
| TransportService.SubscribedIdempotent | src/client/services/transportService.js:98-102 | subscribing twice equals subscribing once |
| TransportService.UnsubscribedNoDuplicates | src/client/services/transportService.js:108-110 | unsubscribing keeps the listeners distinct |
| TransportService.UnsubscribedAbsent | src/client/services/transportService.js:108-110 | removing a callback that is not listening changes nothing |
| TransportService.SubscribeThenUnsubscribe | src/client/services/transportService.js:98-110 | subscribing then unsubscribing a new function restores the listeners |
| TransportService.Transport.constructor | src/client/services/transportService.js:6-12 | stopped at tick 0, 120 bpm, the default 16-beat loop off, no listeners |
| TransportService.Transport.Play | src/client/services/transportService.js:17-22 | playing afterwards, with its timer; already playing changes nothing; position, tempo, loop and listeners kept |
| TransportService.Transport.Pause | src/client/services/transportService.js:27-30 | not playing and no timer afterwards; position, tempo, loop and listeners kept |
| TransportService.Transport.Stop | src/client/services/transportService.js:35-39 | not playing and back at tick 0; tempo, loop and listeners kept |
| TransportService.Transport.SetBpm | src/client/services/transportService.js:53-61 | the tempo becomes the clamped value; play state, position, loop and listeners kept |
| TransportService.Transport.SetLoop | src/client/services/transportService.js:70-75 | the loop becomes the merge of the old loop and the fields; nothing else changes |
| TransportService.Transport.SetPosition | src/client/services/transportService.js:89-92 | the position becomes that tick floored at 0; nothing else changes |
| TransportService.Transport.SubscribeToTick | src/client/services/transportService.js:98-102 | the listeners become Subscribed's, kept distinct |
| TransportService.Transport.UnsubscribeFromTick | src/client/services/transportService.js:108-110 | the listeners become Unsubscribed's |
| TransportService.Transport.AdvanceTick | src/client/services/transportService.js:146-155 | the position advances one tick, wrapping at the loop end; nothing else changes |

## Left out

- Randomness is not modelled as such. Each `Math.random()` draw becomes a parameter:
  - the walking-bass choices;
  - the fill's tom voices and velocities;
  - the Fisher-Yates draws of the 'random' arpeggio;
  - the shuffled order of the other 'random' arpeggios.
  The contracts hold for every choice of those values.
- Both `createVariation`s are not modelled: they are entirely random.
- `quantizeSequence` of midi-framework.js is not modelled: it is not part of the modelled core.
- Ids made from `Date.now()` and `Math.random()` are parameters.
- Session `created` dates and history `timestamp`s are not modelled: they are clock readings.
- Timers are not modelled. The transport's `setInterval` becomes the explicit step `AdvanceTick` and a flag recording whether a timer is held.
- Listener callbacks are opaque ids, and calling them is not modelled.
- Floating point is not modelled. Beat times are exact reals, so IEEE rounding in `Math.round(x / g) * g`, in `x * 960` and in repeated `+= 0.25` is out of scope.
- Aliasing is not modelled:
  - sequences inside sessions, sessions inside the registry, and notes inside sequences are values;
  - the source hands out references to these objects, so a caller could change them from outside;
  - a note "clone" is the note itself.
- JSON text is not modelled. The string path of every `fromJSON`, `JSON.parse`/`JSON.stringify` and the library `MidiExporter` of midi-framework.js are record-level only.
- Library calls are not modelled: the midi-writer-js calls, `Buffer`/base64 output and the `Promise` wrappers. The model stops at the events and tracks handed to the library.
- Express and HTTP are not modelled. Each route handler takes its parameters already read and returns the JSON body or the error that becomes a 400 response.
- The `debug()` console output of src/core/midi-framework.js is not modelled: it is output only.
- Argument types outside the modelled ones are left out:
  - a table lookup with a key inherited from `Object.prototype` (such as `"constructor"`) is treated as a missing key;
  - `instanceof` and `typeof` checks are modelled only for the argument shapes the datatypes name (array or not, string or object, present or absent).
- For `Object.keys` order, array-index keys ascend and other keys keep insertion order. Session ids and sequence ids that look like integers are treated as ordinary insertion-ordered keys.
- JsSupport.ToLower: maps only the ASCII capitals A to Z. JavaScript's `toLowerCase()` applies full Unicode case mapping ("Ä" to "ä", and "İ" to two code units, so the length can change); `JsSupport.ToUpper` is ASCII-only in the same way. No key of the modelled tables holds a non-ASCII letter.
- RootPatterns.CreateChordProgression: requires a non-empty rhythm. With an empty one, `x % 0` makes every duration NaN.
- RootPatterns.CreateRhythmicPattern: requires at least one pitch. With none, each pitch read is `undefined`.
- RootPatterns.CreateBassline: requires every chord to have a first note. Without one, the root is `undefined`.
- RootPatterns.ChangeRhythm: requires a pitch for every sounding rhythm value, for the same reason.
- CoreFrameworkPatterns.CreateChordProgression: requires a non-empty array rhythm, because `x % 0` is NaN.
- CoreFrameworkPatterns.CreateRhythmicPattern: requires a non-empty pitch array when one is given.
- CoreFrameworkSequence.MidiSequence.Quantize: requires a non-zero division. A zero division makes every time NaN.
- CoreMidiSequence.MidiSequence.QuantizeNotes: requires a positive grid. A zero grid gives NaN. A negative grid is also not modelled.
- ServerSequence.FromJson: requires a non-empty generated id, which the source's id expression always yields.

## Findings

| source | as written | input that shows it | evidently intended | confidence | as-written member | corrected member |
|---|---|---|---|---|---|---|
| src/core/musicTheory.js:361-363 | the loop that completes a short scale reads `nextOctaveScale[i - fullScale.length]` after each push, so every added slot is the next octave's root | a pentatonic scale on C4: degrees 6 and 7 are both 72 | continue with the next octave's degrees in order (72, 74) | not executed | CoreMusicTheory.FillScaleRepeatsNextRoot | CoreMusicTheory.FilledIntendedAscends |
| src/server/api/musicTheory.js:190-212 | the inversion is the root's index in the sorted notes | E4-G4-C5 (64, 67, 72), a first-inversion C major, reports inversion 2 | the inversion is the position of the bass note above the root (1 here) | not executed | ServerTheoryApi.FirstInversionReportedAsSecond | ServerTheoryApi.BassInversionNamesTheBass |
| src/core/patternGenerator.js:236-245 | the walking filter checks only the upward move against the octave, so downward moves leave it | root 60 with five notes per chord, every draw moving down: the fourth note is MIDI 12, three octaves below the bass octave, and the fifth finds no candidate (NaN) | every note stays within the chord's bass octave | not executed | CoreBasslineGenerator.WalkLeavesOctave | CoreBasslineGenerator.WalkPitchWithin |
| src/core/midi-framework.js:257-260 | every alternative of the mode group starts with 'm' or 'M', so `startsWith('m')` reads any explicit mode as minor | "G major" is read as G minor and gets 0 sharps and 0 flats | "major" and "maj" read as major, so G major has one sharp | not executed | CoreFrameworkTheory.GMajorReadsAsMinor | CoreFrameworkTheory.GMajorHasOneSharp |
| src/core/midi-framework.js:269-282 | the relative major of a minor key is named from the sharp-spelled table, which flatKeys never contains | "C minor" (relative major D#, not Eb) gives 0 flats | the relative major is spelled with flats where its key signature has flats, so C minor has 3 flats | not executed | CoreFrameworkTheory.FlatMinorKeysHaveNoAccidentals | CoreFrameworkTheory.MinorKeysHaveAccidentals |
| src/server/routes/musicTheoryRoutes.js:158-200 | the inversion tests run only for type 'major', which the interval tests give only to root-position triads, and in those no upper note shares the bass's pitch class | E-G-C (64, 67, 72): an unknown chord on E with inversion 0, where the repository's tests expect C major, inversion 1 | a major triad 3 and 8 semitones above the bass is the first inversion on its top note, one 5 and 9 above is the second inversion on its middle note | not executed | ServerTheoryRoutes.InvertedTriadsUnrecognized | ServerTheoryRoutes.IntendedNamesInversions |
