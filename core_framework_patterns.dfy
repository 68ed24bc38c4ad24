// src/core/midi-framework.js, `PatternGenerators` (lines 502-756). Every
// generator validates its arguments, walks them with a running time and
// pushes `MidiNote`s; each method here runs the source's loops and is proved
// equal to a function that places every note at the time the accumulator
// reaches, and the lemmas state what those notes are.
module CoreFrameworkPatterns {
  import opened JsSupport
  import opened Sorting
  import opened CoreFrameworkSequence

  /** The errors the generators throw. */
  datatype PatternError =
    | InvalidProgressionFormat
    | InvalidChordAt(index: nat)
    | InvalidChordFormat
    | InvalidChordNotes
    | InvalidRhythmParameters

  /** A progression entry: a chord whose `notes` is an array, or anything
      else (a falsy entry, one without `notes`, `notes` not an array). */
  datatype ChordArg = ChordOf(notes: seq<int>) | Malformed

  /** A `rhythmPattern` argument: left out (the default applies), an array,
      or a value that is not an array. */
  datatype RhythmArg = DefaultRhythm | RhythmArray(values: seq<real>) | NotARhythmArray

  /** An argument that must be an array: `None` stands for a falsy value or
      one that is not an array. */
  type ArrayArg<T> = Option<seq<T>>

  /** `new MidiNote(pitch, time, duration, velocity, channel)`. */
  function Note(pitch: int, time: real, duration: real, velocity: int, channel: int): NoteData {
    NoteData(pitch, time, duration, velocity, channel)
  }

  /** A chord entry createBassline accepts: it must also have a first note. */
  predicate Usable(a: ChordArg, needsRoot: bool) {
    a.ChordOf? && (needsRoot ==> |a.notes| > 0)
  }

  /** The index of the first entry that is not usable, which is where the
      `forEach` throws. */
  function FirstUnusable(chords: seq<ChordArg>, needsRoot: bool): (r: Option<nat>)
    ensures r.None? <==> forall i :: 0 <= i < |chords| ==> Usable(chords[i], needsRoot)
    ensures r.Some? ==> r.value < |chords| && !Usable(chords[r.value], needsRoot) &&
                        forall i :: 0 <= i < r.value ==> Usable(chords[i], needsRoot)
  {
    if |chords| == 0 then None
    else if !Usable(chords[0], needsRoot) then Some(0)
    else
      var rest := FirstUnusable(chords[1..], needsRoot);
      assert forall i :: 1 <= i < |chords| ==> chords[i] == chords[1..][i - 1];
      if rest.Some? then Some(rest.value + 1) else None
  }

  /** `chord.notes.forEach(pitch => notes.push(...))`: the first `k` pitches
      of a chord all sound at `t` for `d`. */
  function ChordBlock(pitches: seq<int>, k: nat, t: real, d: real, velocity: int, channel: int): seq<NoteData>
    requires k <= |pitches|
  {
    if k == 0 then [] else ChordBlock(pitches, k - 1, t, d, velocity, channel) + [Note(pitches[k - 1], t, d, velocity, channel)]
  }

  lemma {:induction false} ChordBlockContract(pitches: seq<int>, k: nat, t: real, d: real, velocity: int, channel: int)
    requires k <= |pitches|
    ensures |ChordBlock(pitches, k, t, d, velocity, channel)| == k
    ensures forall i :: 0 <= i < k ==> ChordBlock(pitches, k, t, d, velocity, channel)[i] == Note(pitches[i], t, d, velocity, channel)
  {
    if k > 0 {
      ChordBlockContract(pitches, k - 1, t, d, velocity, channel);
    }
  }

  /** The inner `forEach` over one chord's pitches. */
  method ChordChunk(pitches: seq<int>, t: real, d: real, velocity: int, channel: int) returns (chunk: seq<NoteData>)
    ensures chunk == ChordBlock(pitches, |pitches|, t, d, velocity, channel)
  {
    chunk := [];
    var k := 0;
    while k < |pitches|
      invariant 0 <= k <= |pitches|
      invariant chunk == ChordBlock(pitches, k, t, d, velocity, channel)
    {
      chunk := chunk + [Note(pitches[k], t, d, velocity, channel)];
      k := k + 1;
    }
  }

  // ---------------------------------------------------------------------
  // createChordProgression

  /** An array rhythm must have an entry to cycle through: `x % 0` is NaN. */
  predicate RhythmDefined(rhythm: RhythmArg) {
    rhythm.RhythmArray? ==> |rhythm.values| > 0
  }

  /** The rhythm value of chord `i`: `rhythmPattern[i % length]` for an
      array and 1 for anything else; the default pattern is [1]. */
  function ChordRhythm(rhythm: RhythmArg, i: nat): real
    requires RhythmDefined(rhythm)
  {
    if rhythm.RhythmArray? then Cycle(rhythm.values, i) else 1.0
  }

  /** `currentTime` when chord `i` starts: the sum of the earlier chords'
      rhythm values. */
  function ChordStart(rhythm: RhythmArg, i: nat): real
    requires RhythmDefined(rhythm)
  {
    if i == 0 then 0.0 else ChordStart(rhythm, i - 1) + ChordRhythm(rhythm, i - 1)
  }

  /** The notes of the first `i` chords, all of which are well formed. */
  function ProgressionNotes(chords: seq<ChordArg>, rhythm: RhythmArg, i: nat): seq<NoteData>
    requires RhythmDefined(rhythm) && i <= |chords|
    requires forall k :: 0 <= k < i ==> chords[k].ChordOf?
  {
    if i == 0 then []
    else ProgressionNotes(chords, rhythm, i - 1) +
         ChordBlock(chords[i - 1].notes, |chords[i - 1].notes|, ChordStart(rhythm, i - 1), ChordRhythm(rhythm, i - 1), 80, 0)
  }

  /** What createChordProgression returns or throws. */
  function ChordProgression(progression: ArrayArg<ChordArg>, rhythm: RhythmArg): (r: Result<seq<NoteData>, PatternError>)
    requires RhythmDefined(rhythm)
    ensures r.Err? <==> progression.None? || exists i :: 0 <= i < |progression.value| && progression.value[i].Malformed?
  {
    if progression.None? then Err(InvalidProgressionFormat)
    else
      var chords := progression.value;
      var bad := FirstUnusable(chords, false);
      if bad.Some? then Err(InvalidChordAt(bad.value)) else Ok(ProgressionNotes(chords, rhythm, |chords|))
  }

  /** createChordProgression. */
  method CreateChordProgression(progression: ArrayArg<ChordArg>, rhythmPattern: RhythmArg)
    returns (r: Result<seq<NoteData>, PatternError>)
    requires RhythmDefined(rhythmPattern)
    ensures r == ChordProgression(progression, rhythmPattern)
  {
    if progression.None? {
      return Err(InvalidProgressionFormat);
    }
    var chords := progression.value;
    var notes := [];
    var currentTime := 0.0;
    var i := 0;
    while i < |chords|
      invariant 0 <= i <= |chords|
      invariant forall k :: 0 <= k < i ==> chords[k].ChordOf?
      invariant notes == ProgressionNotes(chords, rhythmPattern, i)
      invariant currentTime == ChordStart(rhythmPattern, i)
    {
      if chords[i].Malformed? {
        return Err(InvalidChordAt(i));
      }
      var rhythmValue := 1.0;
      if rhythmPattern.RhythmArray? {
        CycleIsRemainder(rhythmPattern.values, i);
        rhythmValue := rhythmPattern.values[i % |rhythmPattern.values|];
      }
      var chunk := ChordChunk(chords[i].notes, currentTime, rhythmValue, 80, 0);
      notes := notes + chunk;
      currentTime := currentTime + rhythmValue;
      i := i + 1;
    }
    return Ok(notes);
  }

  /** The number of pitches in the first `i` chords. */
  function PitchCount(chords: seq<ChordArg>, i: nat): nat
    requires i <= |chords| && forall k :: 0 <= k < i ==> chords[k].ChordOf?
  {
    if i == 0 then 0 else PitchCount(chords, i - 1) + |chords[i - 1].notes|
  }

  /** One note per pitch of every chord. */
  lemma {:induction false} ProgressionNotesCount(chords: seq<ChordArg>, rhythm: RhythmArg, i: nat)
    requires RhythmDefined(rhythm) && i <= |chords| && forall k :: 0 <= k < i ==> chords[k].ChordOf?
    ensures |ProgressionNotes(chords, rhythm, i)| == PitchCount(chords, i)
  {
    if i > 0 {
      ProgressionNotesCount(chords, rhythm, i - 1);
      ChordBlockContract(chords[i - 1].notes, |chords[i - 1].notes|, ChordStart(rhythm, i - 1), ChordRhythm(rhythm, i - 1), 80, 0);
    }
  }

  lemma {:induction false} ProgressionNotesPrefix(chords: seq<ChordArg>, rhythm: RhythmArg, i: nat, j: nat)
    requires RhythmDefined(rhythm) && i <= j <= |chords| && forall k :: 0 <= k < j ==> chords[k].ChordOf?
    ensures ProgressionNotes(chords, rhythm, i) <= ProgressionNotes(chords, rhythm, j)
  {
    if i < j {
      ProgressionNotesPrefix(chords, rhythm, i, j - 1);
    }
  }

  /** Note `k` of chord `i` is the chord's `k`-th pitch, starting once the
      earlier chords' rhythm values have passed and lasting
      `rhythmPattern[i % length]`, with velocity 80 on channel 0. */
  lemma ProgressionChordNote(chords: seq<ChordArg>, rhythm: RhythmArg, i: nat, k: nat)
    requires RhythmDefined(rhythm) && forall c :: 0 <= c < |chords| ==> chords[c].ChordOf?
    requires i < |chords| && k < |chords[i].notes|
    ensures var notes := ProgressionNotes(chords, rhythm, |chords|);
            PitchCount(chords, i) + k < |notes| &&
            notes[PitchCount(chords, i) + k] == Note(chords[i].notes[k], ChordStart(rhythm, i), ChordRhythm(rhythm, i), 80, 0)
  {
    var a := ProgressionNotes(chords, rhythm, i);
    var b := ChordBlock(chords[i].notes, |chords[i].notes|, ChordStart(rhythm, i), ChordRhythm(rhythm, i), 80, 0);
    assert ProgressionNotes(chords, rhythm, i + 1) == a + b;
    ProgressionNotesCount(chords, rhythm, i);
    ChordBlockContract(chords[i].notes, |chords[i].notes|, ChordStart(rhythm, i), ChordRhythm(rhythm, i), 80, 0);
    ProgressionNotesPrefix(chords, rhythm, i + 1, |chords|);
    assert (a + b)[|a| + k] == b[k];
  }

  /** An array rhythm gives chord `i` the value `rhythmPattern[i % length]`. */
  lemma ChordRhythmOfArray(rhythm: RhythmArg, i: nat)
    requires rhythm.RhythmArray? && |rhythm.values| > 0
    ensures ChordRhythm(rhythm, i) == rhythm.values[i % |rhythm.values|]
  {
    CycleIsRemainder(rhythm.values, i);
  }

  /** Without an array rhythm every chord lasts one beat, so chord `i`
      starts at beat `i`. */
  lemma {:induction false} ChordStartWithoutArray(rhythm: RhythmArg, i: nat)
    requires !rhythm.RhythmArray?
    ensures ChordStart(rhythm, i) == i as real
  {
    if i > 0 {
      ChordStartWithoutArray(rhythm, i - 1);
    }
  }

  /** A progression that is an array fails on its first malformed chord and
      names that chord's index. */
  lemma ChordProgressionFailsAtFirst(chords: seq<ChordArg>, rhythm: RhythmArg, i: nat)
    requires RhythmDefined(rhythm) && i < |chords| && chords[i].Malformed?
    requires forall k :: 0 <= k < i ==> chords[k].ChordOf?
    ensures ChordProgression(Some(chords), rhythm) == Err(InvalidChordAt(i))
  {
    assert !Usable(chords[i], false);
  }

  // ---------------------------------------------------------------------
  // createBassline

  /** The durations the bassline walks over each chord: the default
      [1, 0.5, 0.5], or the array given; anything else plays nothing. */
  function BassRhythm(rhythm: RhythmArg): seq<real> {
    match rhythm
    case DefaultRhythm => [1.0, 0.5, 0.5]
    case RhythmArray(vs) => vs
    case NotARhythmArray => []
  }

  /** The sum of the first `j` durations, rests and negative values included
      as they are. */
  function Sum(ds: seq<real>, j: nat): real
    requires j <= |ds|
  {
    if j == 0 then 0.0 else Sum(ds, j - 1) + ds[j - 1]
  }

  /** The first `j` bass notes over one chord whose pass starts at `t`: every
      duration pushes a note, velocity 90 on channel 1. */
  function BassPass(durations: seq<real>, pitch: int, t: real, j: nat): seq<NoteData>
    requires j <= |durations|
  {
    if j == 0 then [] else BassPass(durations, pitch, t, j - 1) + [Note(pitch, t + Sum(durations, j - 1), durations[j - 1], 90, 1)]
  }

  /** `currentTime` when the pass over chord `c` starts. */
  function BassStart(durations: seq<real>, c: nat): real {
    if c == 0 then 0.0 else BassStart(durations, c - 1) + Sum(durations, |durations|)
  }

  /** The bass notes of the first `c` chords: each chord's first note an
      octave down, over the whole rhythm. */
  function BassNotes(chords: seq<ChordArg>, durations: seq<real>, c: nat): seq<NoteData>
    requires c <= |chords| && forall k :: 0 <= k < c ==> Usable(chords[k], true)
  {
    if c == 0 then []
    else
      assert Usable(chords[c - 1], true);
      BassNotes(chords, durations, c - 1) + BassPass(durations, chords[c - 1].notes[0] - 12, BassStart(durations, c - 1), |durations|)
  }

  /** What createBassline returns or throws. */
  function Bassline(progression: ArrayArg<ChordArg>, rhythm: RhythmArg): (r: Result<seq<NoteData>, PatternError>)
    ensures r.Err? <==> progression.None? || exists i :: 0 <= i < |progression.value| && !Usable(progression.value[i], true)
  {
    if progression.None? then Err(InvalidProgressionFormat)
    else
      var chords := progression.value;
      if FirstUnusable(chords, true).Some? then Err(InvalidChordFormat)
      else Ok(BassNotes(chords, BassRhythm(rhythm), |chords|))
  }

  /** createBassline. */
  method CreateBassline(progression: ArrayArg<ChordArg>, rhythmPattern: RhythmArg) returns (r: Result<seq<NoteData>, PatternError>)
    ensures r == Bassline(progression, rhythmPattern)
  {
    if progression.None? {
      return Err(InvalidProgressionFormat);
    }
    var chords := progression.value;
    var durations := BassRhythm(rhythmPattern);
    var notes := [];
    var currentTime := 0.0;
    var c := 0;
    while c < |chords|
      invariant 0 <= c <= |chords|
      invariant forall k :: 0 <= k < c ==> Usable(chords[k], true)
      invariant notes == BassNotes(chords, durations, c)
      invariant currentTime == BassStart(durations, c)
    {
      if !Usable(chords[c], true) {
        return Err(InvalidChordFormat);
      }
      var rootNote := chords[c].notes[0] - 12;
      var chunk;
      chunk, currentTime := BassChunk(durations, rootNote, currentTime);
      notes := notes + chunk;
      c := c + 1;
    }
    return Ok(notes);
  }

  /** `rhythmPattern.forEach(duration => ...)` over one chord. */
  method BassChunk(durations: seq<real>, pitch: int, passStart: real) returns (chunk: seq<NoteData>, currentTime: real)
    ensures chunk == BassPass(durations, pitch, passStart, |durations|)
    ensures currentTime == passStart + Sum(durations, |durations|)
  {
    chunk, currentTime := [], passStart;
    var j := 0;
    while j < |durations|
      invariant 0 <= j <= |durations|
      invariant chunk == BassPass(durations, pitch, passStart, j)
      invariant currentTime == passStart + Sum(durations, j)
    {
      chunk := chunk + [Note(pitch, currentTime, durations[j], 90, 1)];
      currentTime := currentTime + durations[j];
      j := j + 1;
    }
  }

  lemma {:induction false} BassPassAt(durations: seq<real>, pitch: int, t: real, j: nat, k: nat)
    requires k < j <= |durations|
    ensures |BassPass(durations, pitch, t, j)| == j
    ensures BassPass(durations, pitch, t, j)[k] == Note(pitch, t + Sum(durations, k), durations[k], 90, 1)
  {
    if k < j - 1 {
      BassPassAt(durations, pitch, t, j - 1, k);
    } else if j > 1 {
      BassPassAt(durations, pitch, t, j - 1, 0);
    }
  }

  lemma {:induction false} BassPassCount(durations: seq<real>, pitch: int, t: real, j: nat)
    requires j <= |durations|
    ensures |BassPass(durations, pitch, t, j)| == j
  {
    if j > 0 {
      BassPassCount(durations, pitch, t, j - 1);
    }
  }

  /** One bass note per chord and duration. */
  lemma {:induction false} BassNotesCount(chords: seq<ChordArg>, durations: seq<real>, c: nat)
    requires c <= |chords| && forall k :: 0 <= k < c ==> Usable(chords[k], true)
    ensures |BassNotes(chords, durations, c)| == c * |durations|
  {
    if c > 0 {
      BassNotesCount(chords, durations, c - 1);
      BassPassCount(durations, chords[c - 1].notes[0] - 12, BassStart(durations, c - 1), |durations|);
      assert (c - 1) * |durations| + |durations| == c * |durations|;
    }
  }

  lemma {:induction false} BassNotesPrefix(chords: seq<ChordArg>, durations: seq<real>, c: nat, d: nat)
    requires c <= d <= |chords| && forall k :: 0 <= k < d ==> Usable(chords[k], true)
    ensures BassNotes(chords, durations, c) <= BassNotes(chords, durations, d)
  {
    if c < d {
      BassNotesPrefix(chords, durations, c, d - 1);
    }
  }

  /** Every pass over a chord lasts the sum of the durations. */
  lemma {:induction false} BassStartIsMultiple(durations: seq<real>, c: nat)
    ensures BassStart(durations, c) == c as real * Sum(durations, |durations|)
  {
    if c > 0 {
      BassStartIsMultiple(durations, c - 1);
    }
  }

  /** Bass note `j` over chord `c` is that chord's first note an octave down,
      lasting duration `j`, at the start of the chord's pass plus the earlier
      durations of the pass, with velocity 90 on channel 1; the pass over
      chord `c` starts at `c` times the rhythm's length (BassStartIsMultiple). */
  lemma BasslineNote(chords: seq<ChordArg>, durations: seq<real>, c: nat, j: nat)
    requires forall k :: 0 <= k < |chords| ==> Usable(chords[k], true)
    requires c < |chords| && j < |durations|
    ensures var notes := BassNotes(chords, durations, |chords|);
            c * |durations| + j < |notes| &&
            notes[c * |durations| + j] ==
            Note(chords[c].notes[0] - 12, BassStart(durations, c) + Sum(durations, j), durations[j], 90, 1)
  {
    var pitch := chords[c].notes[0] - 12;
    var t := BassStart(durations, c);
    var a := BassNotes(chords, durations, c);
    var b := BassPass(durations, pitch, t, |durations|);
    assert BassNotes(chords, durations, c + 1) == a + b;
    BassNotesCount(chords, durations, c);
    BassPassAt(durations, pitch, t, |durations|, j);
    assert b[j] == Note(pitch, t + Sum(durations, j), durations[j], 90, 1);
    BassNotesPrefix(chords, durations, c + 1, |chords|);
    var notes := BassNotes(chords, durations, |chords|);
    assert |a| == c * |durations|;
    assert notes[|a| + j] == (a + b)[|a| + j] == b[j];
  }

  // ---------------------------------------------------------------------
  // createDrumPattern

  /** The three patterns of the `patterns` table; any other name plays
      'basic'. */
  datatype DrumStyle = Basic | Rock | Funk

  function StyleFor(patternType: string): DrumStyle {
    if patternType == "rock" then Rock else if patternType == "funk" then Funk else Basic
  }

  /** `new MidiNote(pitch, time, duration, velocity, 9)`: every drum note is
      on channel 9. */
  function Drum(pitch: int, time: real, duration: real, velocity: int): NoteData {
    NoteData(pitch, time, duration, velocity, 9)
  }

  /** The kick and snare notes of measure `m`, pushed before the hi-hats. */
  function KickSnare(style: DrumStyle, m: nat): seq<NoteData> {
    var t := (4 * m) as real;
    match style
    case Basic => [Drum(36, t, 0.25, 100), Drum(36, t + 2.0, 0.25, 100), Drum(38, t + 1.0, 0.25, 90), Drum(38, t + 3.0, 0.25, 90)]
    case Rock =>
      [Drum(36, t, 0.25, 100), Drum(36, t + 0.75, 0.25, 90), Drum(36, t + 2.0, 0.25, 95), Drum(36, t + 2.75, 0.25, 90),
       Drum(38, t + 1.0, 0.25, 100), Drum(38, t + 3.0, 0.25, 100)]
    case Funk =>
      [Drum(36, t, 0.25, 100), Drum(36, t + 1.5, 0.25, 90), Drum(36, t + 2.75, 0.25, 95),
       Drum(38, t + 1.0, 0.25, 100), Drum(38, t + 3.0, 0.25, 100)]
  }

  /** Eight hi-hats a measure, or sixteen for 'funk'. */
  function HatCount(style: DrumStyle): nat {
    if style == Funk then 16 else 8
  }

  /** Hi-hat `i` of measure `m`: eighths, or for 'funk' accented sixteenths. */
  function Hat(style: DrumStyle, m: nat, i: nat): NoteData {
    var t := (4 * m) as real;
    if style == Funk then Drum(42, t + i as real * 0.25, 0.125, if i % 2 == 0 then 90 else 70)
    else Drum(42, t + i as real * 0.5, 0.25, 80)
  }

  /** The first `i` hi-hats of measure `m`. */
  function Hats(style: DrumStyle, m: nat, i: nat): seq<NoteData> {
    if i == 0 then [] else Hats(style, m, i - 1) + [Hat(style, m, i - 1)]
  }

  /** The tambourine accents 'funk' adds after the hi-hats. */
  function Tambourine(style: DrumStyle, m: nat): seq<NoteData> {
    var t := (4 * m) as real;
    if style == Funk then [Drum(54, t + 0.5, 0.125, 70), Drum(54, t + 1.5, 0.125, 70), Drum(54, t + 2.5, 0.125, 70), Drum(54, t + 3.5, 0.125, 70)]
    else []
  }

  /** Everything one round of the measure loop pushes. */
  function MeasureNotes(style: DrumStyle, m: nat): seq<NoteData> {
    KickSnare(style, m) + Hats(style, m, HatCount(style)) + Tambourine(style, m)
  }

  /** The notes of the first `m` measures. */
  function DrumNotes(style: DrumStyle, m: nat): seq<NoteData> {
    if m == 0 then [] else DrumNotes(style, m - 1) + MeasureNotes(style, m - 1)
  }

  /** createDrumPattern, with 'basic' and two measures by default. A
      non-positive `measures` plays nothing. */
  method CreateDrumPattern(patternType: Option<string>, measures: Option<int>) returns (notes: seq<NoteData>)
    ensures notes == DrumNotes(StyleFor(patternType.GetOr("basic")), Rounds(measures.GetOr(2)))
  {
    var style := StyleFor(patternType.GetOr("basic"));
    var count := measures.GetOr(2);
    notes := [];
    var m := 0;
    while m < count
      invariant 0 <= m && (count >= 0 ==> m <= count) && (count < 0 ==> m == 0)
      invariant notes == DrumNotes(style, m)
    {
      var chunk := DrumMeasure(style, m);
      notes := notes + chunk;
      m := m + 1;
    }
    assert m == Rounds(count);
  }

  /** The body of the measure loop of one pattern. */
  method DrumMeasure(style: DrumStyle, m: nat) returns (chunk: seq<NoteData>)
    ensures chunk == MeasureNotes(style, m)
  {
    var t := (4 * m) as real;
    if style == Basic {
      chunk := [Drum(36, t, 0.25, 100), Drum(36, t + 2.0, 0.25, 100), Drum(38, t + 1.0, 0.25, 90), Drum(38, t + 3.0, 0.25, 90)];
    } else if style == Rock {
      chunk := [Drum(36, t, 0.25, 100), Drum(36, t + 0.75, 0.25, 90), Drum(36, t + 2.0, 0.25, 95), Drum(36, t + 2.75, 0.25, 90),
                Drum(38, t + 1.0, 0.25, 100), Drum(38, t + 3.0, 0.25, 100)];
    } else {
      chunk := [Drum(36, t, 0.25, 100), Drum(36, t + 1.5, 0.25, 90), Drum(36, t + 2.75, 0.25, 95),
                Drum(38, t + 1.0, 0.25, 100), Drum(38, t + 3.0, 0.25, 100)];
    }
    assert chunk == KickSnare(style, m);
    var hats := HatLoop(style, m);
    chunk := chunk + hats;
    if style == Funk {
      chunk := chunk + [Drum(54, t + 0.5, 0.125, 70), Drum(54, t + 1.5, 0.125, 70), Drum(54, t + 2.5, 0.125, 70), Drum(54, t + 3.5, 0.125, 70)];
    }
  }

  /** The hi-hat loop of one measure. */
  method HatLoop(style: DrumStyle, m: nat) returns (hats: seq<NoteData>)
    ensures hats == Hats(style, m, HatCount(style))
  {
    var t := (4 * m) as real;
    var n := if style == Funk then 16 else 8;
    hats := [];
    var i := 0;
    while i < n
      invariant 0 <= i <= n
      invariant hats == Hats(style, m, i)
    {
      if style == Funk {
        hats := hats + [Drum(42, t + i as real * 0.25, 0.125, if i % 2 == 0 then 90 else 70)];
      } else {
        hats := hats + [Drum(42, t + i as real * 0.5, 0.25, 80)];
      }
      i := i + 1;
    }
  }

  /** The notes a measure pushes: 12 for 'basic', 14 for 'rock', 25 for
      'funk'. */
  function PerMeasure(style: DrumStyle): nat {
    match style
    case Basic => 12
    case Rock => 14
    case Funk => 25
  }

  /** Every note is a drum-channel note that starts within [lo, hi). */
  predicate DrumsWithin(ns: seq<NoteData>, lo: real, hi: real) {
    forall k :: 0 <= k < |ns| ==> ns[k].channel == 9 && lo <= ns[k].startTime < hi
  }

  lemma {:induction false} HatsContract(style: DrumStyle, m: nat, i: nat)
    requires i <= HatCount(style)
    ensures |Hats(style, m, i)| == i
    ensures DrumsWithin(Hats(style, m, i), (4 * m) as real, (4 * m + 4) as real)
  {
    if i > 0 {
      HatsContract(style, m, i - 1);
    }
  }

  lemma MeasureContract(style: DrumStyle, m: nat)
    ensures |MeasureNotes(style, m)| == PerMeasure(style)
    ensures DrumsWithin(MeasureNotes(style, m), (4 * m) as real, (4 * m + 4) as real)
  {
    HatsContract(style, m, HatCount(style));
  }

  /** createDrumPattern pushes PerMeasure notes for every measure, all on the
      drum channel 9, starting within the first `4 * m` beats. */
  lemma {:induction false} DrumNotesContract(style: DrumStyle, m: nat)
    ensures |DrumNotes(style, m)| == m * PerMeasure(style)
    ensures DrumsWithin(DrumNotes(style, m), 0.0, (4 * m) as real)
  {
    if m > 0 {
      DrumNotesContract(style, m - 1);
      MeasureContract(style, m - 1);
      assert (m - 1) * PerMeasure(style) + PerMeasure(style) == m * PerMeasure(style);
    }
  }

  /** Every measure starts with a full-velocity kick on its downbeat, and
      the measures follow one another: measure `m` starts at note
      `m * PerMeasure`. */
  lemma DownbeatKick(style: DrumStyle, m: nat, measures: nat)
    requires m < measures
    ensures var notes := DrumNotes(style, measures);
            m * PerMeasure(style) < |notes| && notes[m * PerMeasure(style)] == Drum(36, (4 * m) as real, 0.25, 100)
  {
    DrumNotesContract(style, m);
    DrumNotesPrefix(style, m + 1, measures);
    assert DrumNotes(style, m + 1) == DrumNotes(style, m) + MeasureNotes(style, m);
  }

  lemma {:induction false} DrumNotesPrefix(style: DrumStyle, m: nat, n: nat)
    requires m <= n
    ensures DrumNotes(style, m) <= DrumNotes(style, n)
  {
    if m < n {
      DrumNotesPrefix(style, m, n - 1);
    }
  }

  // ---------------------------------------------------------------------
  // createArpeggio

  /** expandedNotes once the octave loop reaches `o`: the chord, then the
      chord raised 12, 24, ... semitones. */
  function Expanded(chordNotes: seq<int>, o: nat): seq<int> {
    if o <= 1 then chordNotes else Expanded(chordNotes, o - 1) + Offset(12 * (o - 1), chordNotes)
  }

  /** The rounds of the octave loop plus the original chord: at least one. */
  function OctaveCount(octaveRange: int): nat {
    if octaveRange < 1 then 1 else octaveRange
  }

  /** Note `i` of expandedNotes is chord note `i % n` raised by `i / n`
      octaves. */
  lemma {:induction false} ExpandedContract(chordNotes: seq<int>, o: nat)
    requires o >= 1
    ensures |Expanded(chordNotes, o)| == o * |chordNotes|
    ensures forall i :: 0 <= i < |Expanded(chordNotes, o)| ==>
              Expanded(chordNotes, o)[i] == chordNotes[i % |chordNotes|] + 12 * (i / |chordNotes|)
  {
    var n := |chordNotes|;
    if o == 1 {
      forall i | 0 <= i < n
        ensures chordNotes[i] == chordNotes[i % n] + 12 * (i / n)
      {
        RemainderUnique(i, n, 0, i);
      }
    } else {
      var a := Expanded(chordNotes, o - 1);
      var b := Offset(12 * (o - 1), chordNotes);
      assert Expanded(chordNotes, o) == a + b;
      ExpandedContract(chordNotes, o - 1);
      assert |a| + n == o * n;
      forall i | |a| <= i < |a| + |b|
        ensures (a + b)[i] == chordNotes[i % n] + 12 * (i / n)
      {
        RemainderUnique(i, n, o - 1, i - |a|);
      }
    }
  }

  /** The octave loop. */
  method ExpandOctaves(chordNotes: seq<int>, octaveRange: int) returns (expanded: seq<int>)
    ensures expanded == Expanded(chordNotes, OctaveCount(octaveRange))
  {
    expanded := chordNotes;
    var o := 1;
    while o < octaveRange
      invariant 1 <= o && (octaveRange >= 1 ==> o <= octaveRange) && (octaveRange < 1 ==> o == 1)
      invariant expanded == Expanded(chordNotes, o)
    {
      var chunk := OctaveChunk(chordNotes, 12 * o);
      expanded := expanded + chunk;
      o := o + 1;
    }
    assert o == OctaveCount(octaveRange);
  }

  /** `chordNotes.map(note => note + shift)`. */
  method OctaveChunk(chordNotes: seq<int>, shift: int) returns (chunk: seq<int>)
    ensures chunk == Offset(shift, chordNotes)
  {
    chunk := [];
    var k := 0;
    while k < |chordNotes|
      invariant 0 <= k <= |chordNotes|
      invariant |chunk| == k && forall i :: 0 <= i < k ==> chunk[i] == shift + chordNotes[i]
    {
      chunk := chunk + [chordNotes[k] + shift];
      k := k + 1;
    }
  }

  /** A stream of `Math.random()` values, one per shuffle position. */
  ghost predicate Unit(random: nat -> real) {
    forall i :: 0.0 <= random(i) < 1.0
  }

  /** `Math.floor(random * (i + 1))`: the position that position `i` swaps
      with. */
  function Draw(x: real, i: nat): (j: nat)
    requires 0.0 <= x < 1.0
    ensures j <= i
  {
    MulMonotonic(0.0, x, (i + 1) as real);
    MulStrict(x, 1.0, (i + 1) as real);
    (x * (i + 1) as real).Floor
  }

  /** `[s[i], s[j]] = [s[j], s[i]]`. */
  function Swap(s: seq<int>, i: nat, j: nat): (r: seq<int>)
    requires i < |s| && j < |s|
    ensures |r| == |s|
  {
    s[i := s[j]][j := s[i]]
  }

  lemma SwapPermutes(s: seq<int>, i: nat, j: nat)
    requires i < |s| && j < |s|
    ensures multiset(Swap(s, i, j)) == multiset(s)
  {
  }

  /** The sequence after the Fisher-Yates loop has swapped positions
      |s| - 1 down to `i + 1`. */
  function Shuffled(s: seq<int>, random: nat -> real, i: nat): (r: seq<int>)
    requires Unit(random) && i < |s|
    ensures |r| == |s|
    decreases |s| - i
  {
    if i == |s| - 1 then s
    else
      var t := Shuffled(s, random, i + 1);
      Swap(t, i + 1, Draw(random(i + 1), i + 1))
  }

  /** The shuffle only reorders: it keeps every note, as often as it was
      there. */
  lemma {:induction false} ShuffledPermutes(s: seq<int>, random: nat -> real, i: nat)
    requires Unit(random) && i < |s|
    ensures multiset(Shuffled(s, random, i)) == multiset(s)
    decreases |s| - i
  {
    if i < |s| - 1 {
      ShuffledPermutes(s, random, i + 1);
      SwapPermutes(Shuffled(s, random, i + 1), i + 1, Draw(random(i + 1), i + 1));
    }
  }

  /** The Fisher-Yates shuffle of 'random'. */
  method Shuffle(s: seq<int>, random: nat -> real) returns (r: seq<int>)
    requires Unit(random)
    ensures r == if |s| == 0 then [] else Shuffled(s, random, 0)
  {
    r := s;
    if |s| == 0 {
      return;
    }
    var i := |s| - 1;
    while i > 0
      invariant 0 <= i < |s|
      invariant r == Shuffled(s, random, i)
    {
      var j := Draw(random(i), i);
      assert Shuffled(s, random, i - 1) == Swap(r, i, j);
      r := r[i := r[j]][j := r[i]];
      i := i - 1;
    }
    assert i == 0 && r == Shuffled(s, random, 0);
  }

  /** The ascending order followed by its way back down without the top
      note, as `[...ascending].slice(0, -1).reverse()` takes it. */
  function UpDown(expanded: seq<int>): seq<int> {
    var a := SortAsc(expanded);
    a + (if |a| == 0 then [] else Reverse(a[..|a| - 1]))
  }

  /** `sequence`, chosen by `pattern.toLowerCase()`: 'random' uses the
      shuffle of the random stream; an unknown pattern plays 'up'. */
  function ArpSequence(expanded: seq<int>, pattern: string, random: nat -> real): seq<int>
    requires Unit(random)
  {
    var p := ToLower(pattern);
    if p == "down" then SortDesc(expanded)
    else if p == "updown" then UpDown(expanded)
    else if p == "random" then (if |expanded| == 0 then [] else Shuffled(expanded, random, 0))
    else SortAsc(expanded)
  }

  /** Every pattern but 'updown' is an ordering of the expanded notes:
      ascending for 'up' and any unknown name, descending for 'down'. */
  lemma ArpSequencePermutes(expanded: seq<int>, pattern: string, random: nat -> real)
    requires Unit(random)
    ensures ToLower(pattern) != "updown" ==> multiset(ArpSequence(expanded, pattern, random)) == multiset(expanded)
    ensures ToLower(pattern) !in {"updown", "down", "random"} ==> Ascending(ArpSequence(expanded, pattern, random))
    ensures ToLower(pattern) == "down" ==> Descending(ArpSequence(expanded, pattern, random))
  {
    if |expanded| > 0 {
      ShuffledPermutes(expanded, random, 0);
    }
  }

  /** 'updown' climbs through the sorted notes and comes back down to the
      lowest without repeating the top: 2n - 1 pitches for n notes. */
  lemma UpDownShape(expanded: seq<int>)
    requires |expanded| > 0
    ensures |UpDown(expanded)| == 2 * |expanded| - 1
    ensures UpDown(expanded)[..|expanded|] == SortAsc(expanded)
    ensures forall i :: |expanded| <= i < |UpDown(expanded)| ==> UpDown(expanded)[i] == SortAsc(expanded)[2 * |expanded| - 2 - i]
  {
    var a := SortAsc(expanded);
    var d := Reverse(a[..|a| - 1]);
    assert UpDown(expanded) == a + d;
    assert (a + d)[..|a|] == a;
    forall i | |a| <= i < |a| + |d|
      ensures (a + d)[i] == a[2 * |a| - 2 - i]
    {
      assert (a + d)[i] == d[i - |a|];
    }
  }

  /** `time` after `k` steps of `time += noteDuration`. */
  function Advance(t: real, d: real, k: nat): real {
    if k == 0 then t else Advance(t, d, k - 1) + d
  }

  lemma {:induction false} AdvanceIsMultiple(t: real, d: real, k: nat)
    ensures Advance(t, d, k) == t + k as real * d
  {
    if k > 0 {
      AdvanceIsMultiple(t, d, k - 1);
    }
  }

  /** The first `n` arpeggio notes: note `k` plays sequence note `k`
      (cycling through the sequence once per repeat) at the time reached
      after `k` steps, velocity 80 on channel 0. */
  function ArpNotes(pitches: seq<int>, startTime: real, noteDuration: real, n: nat): seq<NoteData> {
    if n == 0 || |pitches| == 0 then []
    else ArpNotes(pitches, startTime, noteDuration, n - 1) +
         [Note(Cycle(pitches, n - 1), Advance(startTime, noteDuration, n - 1), noteDuration, 80, 0)]
  }

  function Times(a: nat, b: nat): nat {
    a * b
  }

  /** What createArpeggio returns or throws. */
  function Arpeggio(chordNotes: ArrayArg<int>, octaveRange: int, pattern: string, noteDuration: real, startTime: real,
                    repeats: int, random: nat -> real): (r: Result<seq<NoteData>, PatternError>)
    requires Unit(random)
    ensures r.Err? <==> chordNotes.None?
  {
    if chordNotes.None? then Err(InvalidChordNotes)
    else
      var pitches := ArpSequence(Expanded(chordNotes.value, OctaveCount(octaveRange)), pattern, random);
      Ok(ArpNotes(pitches, startTime, noteDuration, Times(Rounds(repeats), |pitches|)))
  }

  /** createArpeggio, by default over one octave, 'up', in sixteenths
      (0.25 beats) from 0, once. */
  method CreateArpeggio(chordNotes: ArrayArg<int>, octaveRange: Option<int>, pattern: Option<string>,
                        noteDuration: Option<real>, startTime: Option<real>, repeats: Option<int>, random: nat -> real)
    returns (r: Result<seq<NoteData>, PatternError>)
    requires Unit(random)
    ensures r == Arpeggio(chordNotes, octaveRange.GetOr(1), pattern.GetOr("up"), noteDuration.GetOr(0.25),
                          startTime.GetOr(0.0), repeats.GetOr(1), random)
  {
    if chordNotes.None? {
      return Err(InvalidChordNotes);
    }
    var expanded := ExpandOctaves(chordNotes.value, octaveRange.GetOr(1));
    var sequence;
    var p := ToLower(pattern.GetOr("up"));
    if p == "down" {
      sequence := SortDesc(expanded);
    } else if p == "updown" {
      var ascending := SortAsc(expanded);
      var descending := if |ascending| == 0 then [] else Reverse(ascending[..|ascending| - 1]);
      sequence := ascending + descending;
    } else if p == "random" {
      sequence := Shuffle(expanded, random);
    } else {
      sequence := SortAsc(expanded);
    }
    var notes := ArpLoop(sequence, noteDuration.GetOr(0.25), startTime.GetOr(0.0), repeats.GetOr(1));
    return Ok(notes);
  }

  /** The loop that plays the sequence `repeats` times, one note every
      `noteDuration`. */
  method ArpLoop(sequence: seq<int>, noteDuration: real, startTime: real, repeats: int) returns (notes: seq<NoteData>)
    ensures notes == ArpNotes(sequence, startTime, noteDuration, Times(Rounds(repeats), |sequence|))
  {
    var len := |sequence|;
    notes := [];
    var time := startTime;
    var r := 0;
    while r < repeats
      invariant 0 <= r && (repeats >= 0 ==> r <= repeats) && (repeats < 0 ==> r == 0)
      invariant notes == ArpNotes(sequence, startTime, noteDuration, r * len)
      invariant time == Advance(startTime, noteDuration, r * len)
    {
      var j := 0;
      while j < len
        invariant 0 <= j <= len
        invariant notes == ArpNotes(sequence, startTime, noteDuration, r * len + j)
        invariant time == Advance(startTime, noteDuration, r * len + j)
      {
        CycleShift(sequence, r, j);
        notes := notes + [Note(sequence[j], time, noteDuration, 80, 0)];
        time := time + noteDuration;
        j := j + 1;
      }
      assert r * len + len == (r + 1) * len;
      r := r + 1;
    }
  }

  lemma {:induction false} CycleShift<T>(s: seq<T>, i: nat, j: nat)
    requires j < |s|
    ensures Cycle(s, i * |s| + j) == s[j]
  {
    if i > 0 {
      CycleShift(s, i - 1, j);
      assert (i - 1) * |s| + j == i * |s| + j - |s|;
    }
  }

  lemma {:induction false} ArpNotesAt(pitches: seq<int>, startTime: real, noteDuration: real, n: nat, k: nat)
    requires |pitches| > 0 && k < n
    ensures |ArpNotes(pitches, startTime, noteDuration, n)| == n
    ensures ArpNotes(pitches, startTime, noteDuration, n)[k] ==
            Note(Cycle(pitches, k), Advance(startTime, noteDuration, k), noteDuration, 80, 0)
  {
    if k < n - 1 {
      ArpNotesAt(pitches, startTime, noteDuration, n - 1, k);
    } else if n > 1 {
      ArpNotesAt(pitches, startTime, noteDuration, n - 1, 0);
    }
  }

  /** Arpeggio note `k` plays `sequence[k % len]` at `startTime + k *
      noteDuration` for `noteDuration`; there are `n` notes. */
  lemma ArpNotesContract(pitches: seq<int>, startTime: real, noteDuration: real, n: nat)
    requires |pitches| > 0
    ensures |ArpNotes(pitches, startTime, noteDuration, n)| == n
    ensures forall k :: 0 <= k < n ==>
              ArpNotes(pitches, startTime, noteDuration, n)[k] ==
              Note(pitches[k % |pitches|], startTime + k as real * noteDuration, noteDuration, 80, 0)
  {
    if n > 0 {
      ArpNotesAt(pitches, startTime, noteDuration, n, 0);
    }
    forall k | 0 <= k < n
      ensures ArpNotes(pitches, startTime, noteDuration, n)[k] ==
              Note(pitches[k % |pitches|], startTime + k as real * noteDuration, noteDuration, 80, 0)
    {
      ArpNotesAt(pitches, startTime, noteDuration, n, k);
      CycleIsRemainder(pitches, k);
      AdvanceIsMultiple(startTime, noteDuration, k);
    }
  }

  // ---------------------------------------------------------------------
  // createRhythmicPattern

  /** The sum of |d| over the first `j` durations. */
  function AbsSum(ds: seq<real>, j: nat): (s: real)
    requires j <= |ds|
    ensures s >= 0.0
  {
    if j == 0 then 0.0 else AbsSum(ds, j - 1) + Abs(ds[j - 1])
  }

  /** The notes of the first `j` durations of one pass that starts at `t`:
      a positive duration `k` sounds `notePitches[k % length]` at `t` plus
      the sum of |earlier durations|; a rest pushes nothing. */
  function PassNotes(values: seq<real>, pitches: seq<int>, t: real, j: nat): seq<NoteData>
    requires |pitches| > 0 && j <= |values|
  {
    if j == 0 then []
    else PassNotes(values, pitches, t, j - 1) +
         (if values[j - 1] > 0.0 then [Note(Cycle(pitches, j - 1), t + AbsSum(values, j - 1), values[j - 1], 80, 0)] else [])
  }

  /** The time at which pass `r` starts. */
  function PassStart(values: seq<real>, startTime: real, r: nat): (t: real)
    ensures t >= startTime
  {
    if r == 0 then startTime else PassStart(values, startTime, r - 1) + AbsSum(values, |values|)
  }

  lemma {:induction false} PassStartIsMultiple(values: seq<real>, startTime: real, r: nat)
    ensures PassStart(values, startTime, r) == startTime + r as real * AbsSum(values, |values|)
  {
    if r > 0 {
      PassStartIsMultiple(values, startTime, r - 1);
    }
  }

  /** `repeats` passes, each starting where the previous one ended. */
  function RhythmicNotes(values: seq<real>, pitches: seq<int>, startTime: real, repeats: nat): seq<NoteData>
    requires |pitches| > 0
  {
    if repeats == 0 then []
    else RhythmicNotes(values, pitches, startTime, repeats - 1) + PassNotes(values, pitches, PassStart(values, startTime, repeats - 1), |values|)
  }

  /** What createRhythmicPattern returns or throws. */
  function RhythmicPattern(noteValues: ArrayArg<real>, notePitches: ArrayArg<int>, startTime: real, repeats: int): (r: Result<seq<NoteData>, PatternError>)
    requires notePitches.Some? ==> |notePitches.value| > 0
    ensures r.Err? <==> noteValues.None? || notePitches.None?
  {
    if noteValues.None? || notePitches.None? then Err(InvalidRhythmParameters)
    else Ok(RhythmicNotes(noteValues.value, notePitches.value, startTime, Rounds(repeats)))
  }

  /** createRhythmicPattern, from 0 with one pass by default. A negative
      `repeats` runs no pass. */
  method CreateRhythmicPattern(noteValues: ArrayArg<real>, notePitches: ArrayArg<int>, startTime: Option<real>,
                               repeats: Option<int>)
    returns (r: Result<seq<NoteData>, PatternError>)
    requires notePitches.Some? ==> |notePitches.value| > 0
    ensures r == RhythmicPattern(noteValues, notePitches, startTime.GetOr(0.0), repeats.GetOr(1))
  {
    if noteValues.None? || notePitches.None? {
      return Err(InvalidRhythmParameters);
    }
    var values, pitches := noteValues.value, notePitches.value;
    var start, count := startTime.GetOr(0.0), repeats.GetOr(1);
    var notes := [];
    var time := start;
    var i := 0;
    while i < count
      invariant 0 <= i && (count >= 0 ==> i <= count) && (count < 0 ==> i == 0)
      invariant notes == RhythmicNotes(values, pitches, start, i)
      invariant time == PassStart(values, start, i)
    {
      var pass;
      pass, time := RhythmicPass(values, pitches, time);
      notes := notes + pass;
      i := i + 1;
    }
    assert i == Rounds(count);
    return Ok(notes);
  }

  /** One pass of the inner loop: the notes it pushes and the time it
      reaches. */
  method RhythmicPass(values: seq<real>, pitches: seq<int>, passStart: real) returns (notes: seq<NoteData>, time: real)
    requires |pitches| > 0
    ensures notes == PassNotes(values, pitches, passStart, |values|)
    ensures time == passStart + AbsSum(values, |values|)
  {
    notes, time := [], passStart;
    var j := 0;
    while j < |values|
      invariant 0 <= j <= |values|
      invariant notes == PassNotes(values, pitches, passStart, j)
      invariant time == passStart + AbsSum(values, j)
    {
      CycleIsRemainder(pitches, j);
      var pitch := pitches[j % |pitches|];
      var duration := values[j];
      if duration > 0.0 {
        notes := notes + [Note(pitch, time, duration, 80, 0)];
      }
      time := time + Abs(duration);
      j := j + 1;
    }
  }

  /** Start times that never decrease along the list. */
  predicate StartsSorted(ns: seq<NoteData>) {
    forall i, j :: 0 <= i < j < |ns| ==> ns[i].startTime <= ns[j].startTime
  }

  /** Every start time lies in [lo, hi]. */
  predicate StartsWithin(ns: seq<NoteData>, lo: real, hi: real) {
    forall i :: 0 <= i < |ns| ==> lo <= ns[i].startTime <= hi
  }

  /** No rest, and velocity 80 on channel 0. */
  predicate PlainNotes(ns: seq<NoteData>) {
    forall k :: 0 <= k < |ns| ==> ns[k].duration > 0.0 && ns[k].velocity == 80 && ns[k].channel == 0
  }

  lemma WithinConcat(a: seq<NoteData>, b: seq<NoteData>, lo: real, mid: real, hi: real)
    requires StartsWithin(a, lo, mid) && StartsWithin(b, mid, hi) && lo <= mid <= hi
    ensures StartsWithin(a + b, lo, hi)
  {
  }

  lemma SortedConcat(a: seq<NoteData>, b: seq<NoteData>, lo: real, mid: real, hi: real)
    requires StartsSorted(a) && StartsSorted(b) && StartsWithin(a, lo, mid) && StartsWithin(b, mid, hi)
    ensures StartsSorted(a + b)
  {
  }

  lemma PlainConcat(a: seq<NoteData>, b: seq<NoteData>)
    requires PlainNotes(a) && PlainNotes(b)
    ensures PlainNotes(a + b)
  {
  }

  /** One pass starting at `t` pushes notes at times from `t` up to `t`
      plus the sum of |durations| so far, in order. */
  lemma {:induction false} PassNotesTimes(values: seq<real>, pitches: seq<int>, t: real, j: nat)
    requires |pitches| > 0 && j <= |values|
    ensures StartsWithin(PassNotes(values, pitches, t, j), t, t + AbsSum(values, j))
    ensures StartsSorted(PassNotes(values, pitches, t, j))
  {
    if j > 0 {
      var tj := t + AbsSum(values, j - 1);
      var a := PassNotes(values, pitches, t, j - 1);
      var b := if values[j - 1] > 0.0 then [Note(Cycle(pitches, j - 1), tj, values[j - 1], 80, 0)] else [];
      assert PassNotes(values, pitches, t, j) == a + b;
      PassNotesTimes(values, pitches, t, j - 1);
      assert StartsWithin(b, tj, tj);
      WithinConcat(a, b, t, tj, t + AbsSum(values, j));
      SortedConcat(a, b, t, tj, tj);
    }
  }

  /** Every note of createRhythmicPattern starts at or after `startTime`,
      no earlier than the note before it and no later than the end of the
      last pass. */
  lemma {:induction false} RhythmicNotesTimes(values: seq<real>, pitches: seq<int>, startTime: real, repeats: nat)
    requires |pitches| > 0
    ensures StartsSorted(RhythmicNotes(values, pitches, startTime, repeats))
    ensures StartsWithin(RhythmicNotes(values, pitches, startTime, repeats), startTime, PassStart(values, startTime, repeats))
  {
    if repeats > 0 {
      var t := PassStart(values, startTime, repeats - 1);
      var a := RhythmicNotes(values, pitches, startTime, repeats - 1);
      var b := PassNotes(values, pitches, t, |values|);
      assert RhythmicNotes(values, pitches, startTime, repeats) == a + b;
      RhythmicNotesTimes(values, pitches, startTime, repeats - 1);
      PassNotesTimes(values, pitches, t, |values|);
      SortedConcat(a, b, startTime, t, PassStart(values, startTime, repeats));
      WithinConcat(a, b, startTime, t, PassStart(values, startTime, repeats));
    }
  }

  /** The number of positive durations among the first `j`. */
  function Sounding(values: seq<real>, j: nat): nat
    requires j <= |values|
  {
    if j == 0 then 0 else Sounding(values, j - 1) + (if values[j - 1] > 0.0 then 1 else 0)
  }

  /** A pass pushes one note per positive duration, each with a positive
      duration, velocity 80 and channel 0: rests push nothing. */
  lemma {:induction false} PassNotesPlain(values: seq<real>, pitches: seq<int>, t: real, j: nat)
    requires |pitches| > 0 && j <= |values|
    ensures PlainNotes(PassNotes(values, pitches, t, j))
    ensures |PassNotes(values, pitches, t, j)| == Sounding(values, j)
  {
    if j > 0 {
      var a := PassNotes(values, pitches, t, j - 1);
      var b := if values[j - 1] > 0.0 then [Note(Cycle(pitches, j - 1), t + AbsSum(values, j - 1), values[j - 1], 80, 0)] else [];
      assert PassNotes(values, pitches, t, j) == a + b;
      PassNotesPlain(values, pitches, t, j - 1);
      PlainConcat(a, b);
    }
  }

  /** createRhythmicPattern pushes `repeats` times the number of positive
      durations, none of them a rest. */
  lemma {:induction false} RhythmicNotesPlain(values: seq<real>, pitches: seq<int>, startTime: real, repeats: nat)
    requires |pitches| > 0
    ensures PlainNotes(RhythmicNotes(values, pitches, startTime, repeats))
    ensures |RhythmicNotes(values, pitches, startTime, repeats)| == repeats * Sounding(values, |values|)
  {
    if repeats > 0 {
      var a := RhythmicNotes(values, pitches, startTime, repeats - 1);
      var b := PassNotes(values, pitches, PassStart(values, startTime, repeats - 1), |values|);
      assert RhythmicNotes(values, pitches, startTime, repeats) == a + b;
      RhythmicNotesPlain(values, pitches, startTime, repeats - 1);
      PassNotesPlain(values, pitches, PassStart(values, startTime, repeats - 1), |values|);
      PlainConcat(a, b);
      assert (repeats - 1) * Sounding(values, |values|) + Sounding(values, |values|) == repeats * Sounding(values, |values|);
    }
  }
}
