// fixed-patterns.js: five pattern builders that check their inputs and
// return fixed fallback notes for invalid ones. Each walks its input with a
// running `currentTime` and pushes plain note objects; each method here is
// proved equal to a function that places every note at the time the
// source's accumulator reaches.
module FixedPatterns {
  import opened JsSupport
  import opened Sorting

  /** The note objects the builders push. */
  datatype Note = Note(pitch: int, startTime: real, duration: real, velocity: int, channel: int)

  /** An argument the source expects to be an array: left `undefined` (the
      default parameter applies), some other non-array value, or an array. */
  datatype Arg<T> = Missing | NotArray | Array(items: seq<T>)

  /** An element of a progression: a falsy value or an object without
      `notes`, or a chord with its notes. */
  datatype ChordArg = NoChord | ChordOf(notes: seq<int>)

  /** The same note on every pitch in `pitches[..k]`, in order. */
  function Block(pitches: seq<int>, k: nat, t: real, duration: real, velocity: int, channel: int): seq<Note>
    requires k <= |pitches|
  {
    if k == 0 then [] else Block(pitches, k - 1, t, duration, velocity, channel) + [Note(pitches[k - 1], t, duration, velocity, channel)]
  }

  lemma {:induction false} BlockContract(pitches: seq<int>, k: nat, t: real, duration: real, velocity: int, channel: int)
    requires k <= |pitches|
    ensures |Block(pitches, k, t, duration, velocity, channel)| == k
    ensures forall i :: 0 <= i < k ==> Block(pitches, k, t, duration, velocity, channel)[i] == Note(pitches[i], t, duration, velocity, channel)
  {
    if k > 0 {
      BlockContract(pitches, k - 1, t, duration, velocity, channel);
    }
  }

  /** `pitches.forEach(pitch => notes.push({...}))`: one note per pitch, all
      at `t`. */
  method BlockChunk(pitches: seq<int>, t: real, duration: real, velocity: int, channel: int) returns (chunk: seq<Note>)
    ensures chunk == Block(pitches, |pitches|, t, duration, velocity, channel)
  {
    chunk := [];
    var k := 0;
    while k < |pitches|
      invariant 0 <= k <= |pitches|
      invariant chunk == Block(pitches, k, t, duration, velocity, channel)
    {
      chunk := chunk + [Note(pitches[k], t, duration, velocity, channel)];
      k := k + 1;
    }
  }

  /** Start times that never decrease along the list. */
  predicate StartsSorted(ns: seq<Note>) {
    forall i, j :: 0 <= i < j < |ns| ==> ns[i].startTime <= ns[j].startTime
  }

  /** Every start time lies in [lo, hi]. */
  predicate StartsWithin(ns: seq<Note>, lo: real, hi: real) {
    forall i :: 0 <= i < |ns| ==> lo <= ns[i].startTime <= hi
  }

  lemma WithinConcat(a: seq<Note>, b: seq<Note>, lo: real, mid: real, hi: real)
    requires StartsWithin(a, lo, mid) && StartsWithin(b, mid, hi) && lo <= mid <= hi
    ensures StartsWithin(a + b, lo, hi)
  {
  }

  lemma SortedConcat(a: seq<Note>, b: seq<Note>, lo: real, mid: real, hi: real)
    requires StartsSorted(a) && StartsSorted(b) && StartsWithin(a, lo, mid) && StartsWithin(b, mid, hi)
    ensures StartsSorted(a + b)
  {
  }

  // ---------------------------------------------------------------------
  // createChordProgression (lines 6-40)

  /** The rhythm the loop reads: `[1]` when left out, `[]` for a non-array
      (which, like an empty array, makes every chord a whole note). */
  function ProgressionRhythm(rhythmPattern: Arg<real>): seq<real> {
    match rhythmPattern
    case Missing => [1.0]
    case NotArray => []
    case Array(values) => values
  }

  /** The length of chord `i`: `rhythmPattern[i % length]`, or 4. The index
      counts skipped chords too. */
  function RhythmValue(rhythm: seq<real>, i: nat): real {
    if |rhythm| > 0 then Cycle(rhythm, i) else 4.0
  }

  /** `currentTime` before chord `i`: the lengths of the valid chords before
      it; a skipped chord does not advance the time. */
  function ProgressionTime(chords: seq<ChordArg>, rhythm: seq<real>, i: nat): real
    requires i <= |chords|
  {
    if i == 0 then 0.0
    else ProgressionTime(chords, rhythm, i - 1) + (if chords[i - 1].ChordOf? then RhythmValue(rhythm, i - 1) else 0.0)
  }

  /** The notes a chord contributes: all its notes at the current time. */
  function ChordBlock(chords: seq<ChordArg>, rhythm: seq<real>, i: nat): seq<Note>
    requires i < |chords|
  {
    match chords[i]
    case NoChord => []
    case ChordOf(ns) => Block(ns, |ns|, ProgressionTime(chords, rhythm, i), RhythmValue(rhythm, i), 80, 0)
  }

  /** The notes of the first `i` chords. */
  function ProgressionNotes(chords: seq<ChordArg>, rhythm: seq<real>, i: nat): seq<Note>
    requires i <= |chords|
  {
    if i == 0 then [] else ProgressionNotes(chords, rhythm, i - 1) + ChordBlock(chords, rhythm, i - 1)
  }

  /** createChordProgression: `[]` for a non-array progression. */
  method CreateChordProgression(progression: Arg<ChordArg>, rhythmPattern: Arg<real>) returns (notes: seq<Note>)
    ensures !progression.Array? ==> notes == []
    ensures progression.Array? ==>
              notes == ProgressionNotes(progression.items, ProgressionRhythm(rhythmPattern), |progression.items|)
  {
    if !progression.Array? {
      return [];
    }
    var chords := progression.items;
    var rhythm := ProgressionRhythm(rhythmPattern);
    notes := [];
    var currentTime := 0.0;
    var i := 0;
    while i < |chords|
      invariant 0 <= i <= |chords|
      invariant notes == ProgressionNotes(chords, rhythm, i)
      invariant currentTime == ProgressionTime(chords, rhythm, i)
    {
      var chord := chords[i];
      if chord.ChordOf? {
        var rhythmValue := 4.0;
        if |rhythm| > 0 {
          CycleIsRemainder(rhythm, i);
          rhythmValue := rhythm[i % |rhythm|];
        }
        var chunk := BlockChunk(chord.notes, currentTime, rhythmValue, 80, 0);
        notes := notes + chunk;
        currentTime := currentTime + rhythmValue;
      }
      i := i + 1;
    }
  }

  /** The number of notes of the valid chords among the first `i`. */
  function NoteCount(chords: seq<ChordArg>, i: nat): nat
    requires i <= |chords|
  {
    if i == 0 then 0 else NoteCount(chords, i - 1) + (if chords[i - 1].ChordOf? then |chords[i - 1].notes| else 0)
  }

  /** One note per note of every valid chord. */
  lemma {:induction false} ProgressionNotesCount(chords: seq<ChordArg>, rhythm: seq<real>, i: nat)
    requires i <= |chords|
    ensures |ProgressionNotes(chords, rhythm, i)| == NoteCount(chords, i)
  {
    if i > 0 {
      ProgressionNotesCount(chords, rhythm, i - 1);
      if chords[i - 1].ChordOf? {
        var ns := chords[i - 1].notes;
        BlockContract(ns, |ns|, ProgressionTime(chords, rhythm, i - 1), RhythmValue(rhythm, i - 1), 80, 0);
      }
    }
  }

  /** The notes of a valid chord share its start time and length, with
      velocity 80 on channel 0, and cover every note of the chord. */
  lemma ChordBlockContract(chords: seq<ChordArg>, rhythm: seq<real>, i: nat)
    requires i < |chords| && chords[i].ChordOf?
    ensures |ChordBlock(chords, rhythm, i)| == |chords[i].notes|
    ensures forall k :: 0 <= k < |chords[i].notes| ==>
              ChordBlock(chords, rhythm, i)[k] ==
              Note(chords[i].notes[k], ProgressionTime(chords, rhythm, i), RhythmValue(rhythm, i), 80, 0)
  {
    var ns := chords[i].notes;
    BlockContract(ns, |ns|, ProgressionTime(chords, rhythm, i), RhythmValue(rhythm, i), 80, 0);
  }

  /** Every note of the progression comes from a valid chord `k`, played at
      that chord's time for that chord's length; a skipped chord has none. */
  lemma {:induction false} ProgressionNotesFrom(chords: seq<ChordArg>, rhythm: seq<real>, i: nat)
    requires i <= |chords|
    ensures forall n :: n in ProgressionNotes(chords, rhythm, i) ==>
              exists k :: 0 <= k < i && chords[k].ChordOf? && n.pitch in chords[k].notes &&
                          n == Note(n.pitch, ProgressionTime(chords, rhythm, k), RhythmValue(rhythm, k), 80, 0)
  {
    if i > 0 {
      ProgressionNotesFrom(chords, rhythm, i - 1);
      if chords[i - 1].ChordOf? {
        ChordBlockContract(chords, rhythm, i - 1);
      }
    }
  }

  /** Every note of every valid chord is played. */
  lemma {:induction false} ProgressionNotesCover(chords: seq<ChordArg>, rhythm: seq<real>, i: nat)
    requires i <= |chords|
    ensures forall k, p :: 0 <= k < i && chords[k].ChordOf? && p in chords[k].notes ==>
              Note(p, ProgressionTime(chords, rhythm, k), RhythmValue(rhythm, k), 80, 0) in ProgressionNotes(chords, rhythm, i)
  {
    if i > 0 {
      ProgressionNotesCover(chords, rhythm, i - 1);
      if chords[i - 1].ChordOf? {
        ChordBlockContract(chords, rhythm, i - 1);
        var ns := chords[i - 1].notes;
        forall p | p in ns
          ensures Note(p, ProgressionTime(chords, rhythm, i - 1), RhythmValue(rhythm, i - 1), 80, 0) in ChordBlock(chords, rhythm, i - 1)
        {
          var k :| 0 <= k < |ns| && ns[k] == p;
          assert ChordBlock(chords, rhythm, i - 1)[k] == Note(p, ProgressionTime(chords, rhythm, i - 1), RhythmValue(rhythm, i - 1), 80, 0);
        }
      }
    }
  }

  // ---------------------------------------------------------------------
  // createBassline (lines 43-83)

  const BASS_FALLBACK: seq<Note> := [Note(36, 0.0, 1.0, 90, 1), Note(48, 1.0, 1.0, 90, 1)]
  const DEFAULT_BASS_RHYTHM: seq<real> := [1.0, 0.5, 0.5]

  /** The rhythm: `[1, 0.5, 0.5]` unless a non-empty array is given. */
  function BassRhythm(rhythmPattern: Arg<real>): (r: seq<real>)
    ensures |r| > 0
  {
    if rhythmPattern.Array? && |rhythmPattern.items| > 0 then rhythmPattern.items else DEFAULT_BASS_RHYTHM
  }

  /** A chord the bassline plays: one with at least one note. */
  predicate BassChord(chord: ChordArg) {
    chord.ChordOf? && |chord.notes| > 0
  }

  /** The sum of the first `j` durations (negative ones included: the
      bassline does not take absolute values). */
  function Sum(ds: seq<real>, j: nat): real
    requires j <= |ds|
  {
    if j == 0 then 0.0 else Sum(ds, j - 1) + ds[j - 1]
  }

  /** The first `j` notes of one chord's run on `root`, from time `t`. */
  function Run(root: int, rhythm: seq<real>, t: real, j: nat): seq<Note>
    requires j <= |rhythm|
  {
    if j == 0 then [] else Run(root, rhythm, t, j - 1) + [Note(root, t + Sum(rhythm, j - 1), rhythm[j - 1], 90, 1)]
  }

  /** `currentTime` before chord `i`: one whole rhythm per played chord. */
  function BassTime(chords: seq<ChordArg>, rhythm: seq<real>, i: nat): real
    requires i <= |chords|
  {
    if i == 0 then 0.0
    else BassTime(chords, rhythm, i - 1) + (if BassChord(chords[i - 1]) then Sum(rhythm, |rhythm|) else 0.0)
  }

  /** The notes chord `i` contributes: the rhythm on its first note an
      octave down. */
  function BassRun(chords: seq<ChordArg>, rhythm: seq<real>, i: nat): seq<Note>
    requires i < |chords|
  {
    if BassChord(chords[i]) then Run(chords[i].notes[0] - 12, rhythm, BassTime(chords, rhythm, i), |rhythm|) else []
  }

  function BassNotes(chords: seq<ChordArg>, rhythm: seq<real>, i: nat): seq<Note>
    requires i <= |chords|
  {
    if i == 0 then [] else BassNotes(chords, rhythm, i - 1) + BassRun(chords, rhythm, i - 1)
  }

  /** createBassline: the two-note fallback for a non-array progression. */
  method CreateBassline(progression: Arg<ChordArg>, rhythmPattern: Arg<real>) returns (notes: seq<Note>)
    ensures !progression.Array? ==> notes == BASS_FALLBACK
    ensures progression.Array? ==>
              notes == BassNotes(progression.items, BassRhythm(rhythmPattern), |progression.items|)
  {
    if !progression.Array? {
      return BASS_FALLBACK;
    }
    var chords := progression.items;
    var rhythm := BassRhythm(rhythmPattern);
    notes := [];
    var currentTime := 0.0;
    var chordIndex := 0;
    while chordIndex < |chords|
      invariant 0 <= chordIndex <= |chords|
      invariant notes == BassNotes(chords, rhythm, chordIndex)
      invariant currentTime == BassTime(chords, rhythm, chordIndex)
    {
      var chord := chords[chordIndex];
      if chord.ChordOf? && |chord.notes| > 0 {
        var rootNote := chord.notes[0] - 12;
        var chunk;
        chunk, currentTime := RunChunk(rootNote, rhythm, currentTime);
        notes := notes + chunk;
      }
      chordIndex := chordIndex + 1;
    }
  }

  /** The inner `rhythmPattern.forEach` of one chord, and the time it
      advances to. */
  method RunChunk(root: int, rhythm: seq<real>, t: real) returns (chunk: seq<Note>, currentTime: real)
    ensures chunk == Run(root, rhythm, t, |rhythm|)
    ensures currentTime == t + Sum(rhythm, |rhythm|)
  {
    chunk, currentTime := [], t;
    var j := 0;
    while j < |rhythm|
      invariant 0 <= j <= |rhythm|
      invariant chunk == Run(root, rhythm, t, j)
      invariant currentTime == t + Sum(rhythm, j)
    {
      var duration := rhythm[j];
      chunk := chunk + [Note(root, currentTime, duration, 90, 1)];
      currentTime := currentTime + duration;
      j := j + 1;
    }
  }

  /** Note `k` of a run plays rhythm value `k` at `t` plus the earlier
      values. */
  lemma {:induction false} RunContract(root: int, rhythm: seq<real>, t: real, j: nat)
    requires j <= |rhythm|
    ensures |Run(root, rhythm, t, j)| == j
    ensures forall k {:trigger Run(root, rhythm, t, j)[k]} :: 0 <= k < j ==>
              Run(root, rhythm, t, j)[k] == Note(root, t + Sum(rhythm, k), rhythm[k], 90, 1)
  {
    if j > 0 {
      RunContract(root, rhythm, t, j - 1);
    }
  }

  /** The number of chords with notes among the first `i`. */
  function BassCount(chords: seq<ChordArg>, i: nat): nat
    requires i <= |chords|
  {
    if i == 0 then 0 else BassCount(chords, i - 1) + (if BassChord(chords[i - 1]) then 1 else 0)
  }

  /** One note per rhythm value for every chord with notes. */
  lemma {:induction false} BassNotesCount(chords: seq<ChordArg>, rhythm: seq<real>, i: nat)
    requires i <= |chords|
    ensures |BassNotes(chords, rhythm, i)| == |rhythm| * BassCount(chords, i)
  {
    if i > 0 {
      BassNotesCount(chords, rhythm, i - 1);
      var a := BassNotes(chords, rhythm, i - 1);
      var b := BassRun(chords, rhythm, i - 1);
      assert BassNotes(chords, rhythm, i) == a + b;
      var n, c := |rhythm|, BassCount(chords, i - 1);
      if BassChord(chords[i - 1]) {
        RunContract(chords[i - 1].notes[0] - 12, rhythm, BassTime(chords, rhythm, i - 1), n);
        assert |b| == n;
        assert BassCount(chords, i) == c + 1;
        MulSucc(n, c);
      } else {
        assert b == [];
        assert BassCount(chords, i) == c;
      }
    }
  }

  lemma MulSucc(n: nat, c: nat)
    ensures n * (c + 1) == n * c + n
  {
  }

  /** Every bass note is the first note of a chord with notes, an octave
      down, at velocity 90 on channel 1, lasting one of the rhythm values. */
  lemma {:induction false} BassNotesFrom(chords: seq<ChordArg>, rhythm: seq<real>, i: nat)
    requires i <= |chords|
    ensures forall n :: n in BassNotes(chords, rhythm, i) ==>
              n.velocity == 90 && n.channel == 1 && n.duration in rhythm &&
              exists k :: 0 <= k < i && BassChord(chords[k]) && n.pitch == chords[k].notes[0] - 12
  {
    if i > 0 {
      BassNotesFrom(chords, rhythm, i - 1);
      var a := BassNotes(chords, rhythm, i - 1);
      var b := BassRun(chords, rhythm, i - 1);
      assert BassNotes(chords, rhythm, i) == a + b;
      if BassChord(chords[i - 1]) {
        var root := chords[i - 1].notes[0] - 12;
        RunShape(root, rhythm, BassTime(chords, rhythm, i - 1), |rhythm|);
        forall n | n in b
          ensures exists k :: 0 <= k < i && BassChord(chords[k]) && n.pitch == chords[k].notes[0] - 12
        {
          assert BassChord(chords[i - 1]) && n.pitch == chords[i - 1].notes[0] - 12;
        }
      } else {
        assert b == [];
      }
      forall n | n in a
        ensures exists k :: 0 <= k < i && BassChord(chords[k]) && n.pitch == chords[k].notes[0] - 12
      {
        var k :| 0 <= k < i - 1 && BassChord(chords[k]) && n.pitch == chords[k].notes[0] - 12;
      }
    }
  }

  /** Every note of a run is on `root`, at velocity 90 on channel 1, and
      lasts one of the rhythm values. */
  lemma {:induction false} RunShape(root: int, rhythm: seq<real>, t: real, j: nat)
    requires j <= |rhythm|
    ensures forall n :: n in Run(root, rhythm, t, j) ==>
              n.pitch == root && n.velocity == 90 && n.channel == 1 && n.duration in rhythm
  {
    if j > 0 {
      RunShape(root, rhythm, t, j - 1);
    }
  }

  // ---------------------------------------------------------------------
  // createDrumPattern (lines 86-164)

  const KICK := 36
  const SNARE := 38
  const HIHAT := 42
  const OPEN_HIHAT := 46

  /** One measure of a pattern: eight eighth-note slots per voice, `true`
      where the table holds 1. */
  datatype DrumPattern = DrumPattern(kick: seq<bool>, snare: seq<bool>, hihat: seq<bool>)
  {
    predicate Valid() {
      |kick| == 8 && |snare| == 8 && |hihat| == 8
    }
  }

  const BASIC_KICK := [true, false, false, false, true, false, false, false]
  const ROCK_KICK := [true, false, false, true, true, false, false, true]
  const FUNK_KICK := [true, false, false, true, false, true, false, false]
  /** The snare of all three patterns, on beats 2 and 4. */
  const BACKBEAT := [false, false, true, false, false, false, true, false]
  const QUARTERS := [true, false, true, false, true, false, true, false]
  const EIGHTHS := [true, true, true, true, true, true, true, true]

  const BASIC := DrumPattern(BASIC_KICK, BACKBEAT, QUARTERS)
  const ROCK := DrumPattern(ROCK_KICK, BACKBEAT, EIGHTHS)
  const FUNK := DrumPattern(FUNK_KICK, BACKBEAT, EIGHTHS)

  /** `patterns[patternType] || patterns.basic`. */
  function PatternFor(patternType: string): (p: DrumPattern)
    ensures p.Valid()
  {
    if patternType == "rock" then ROCK
    else if patternType == "funk" then FUNK
    else BASIC
  }

  /** `measure * 4 + i * 0.5` */
  function SlotTime(measure: nat, i: nat): real {
    (4 * measure) as real + i as real * 0.5
  }

  function Drum(pitch: int, time: real, velocity: int): Note {
    Note(pitch, time, 0.25, velocity, 9)
  }

  /** The notes of slot `i` of a measure: kick, then snare, then hi-hat. */
  function SlotNotes(p: DrumPattern, measure: nat, i: nat): seq<Note>
    requires p.Valid() && i < 8
  {
    var t := SlotTime(measure, i);
    (if p.kick[i] then [Drum(KICK, t, 100)] else []) +
    (if p.snare[i] then [Drum(SNARE, t, 90)] else []) +
    (if p.hihat[i] then [Drum(HIHAT, t, 80)] else [])
  }

  function MeasureNotes(p: DrumPattern, measure: nat, i: nat): seq<Note>
    requires p.Valid() && i <= 8
  {
    if i == 0 then [] else MeasureNotes(p, measure, i - 1) + SlotNotes(p, measure, i - 1)
  }

  function DrumNotes(p: DrumPattern, measures: nat): seq<Note>
    requires p.Valid()
  {
    if measures == 0 then [] else DrumNotes(p, measures - 1) + MeasureNotes(p, measures - 1, 8)
  }

  /** createDrumPattern, with 'basic' and two measures by default. */
  method CreateDrumPattern(patternType: Option<string>, measures: Option<int>) returns (notes: seq<Note>)
    ensures notes == DrumNotes(PatternFor(patternType.GetOr("basic")), Rounds(measures.GetOr(2)))
  {
    var pattern := PatternFor(patternType.GetOr("basic"));
    var count := measures.GetOr(2);
    notes := [];
    var measure := 0;
    while measure < count
      invariant 0 <= measure <= Rounds(count)
      invariant notes == DrumNotes(pattern, measure)
    {
      var chunk := DrumMeasure(pattern, measure);
      assert notes + chunk == DrumNotes(pattern, measure + 1);
      notes := notes + chunk;
      measure := measure + 1;
    }
    assert measure == Rounds(count);
  }

  /** The inner loop over the eight slots of one measure. */
  method DrumMeasure(p: DrumPattern, measure: nat) returns (chunk: seq<Note>)
    requires p.Valid()
    ensures chunk == MeasureNotes(p, measure, 8)
  {
    chunk := [];
    var i := 0;
    while i < 8
      invariant 0 <= i <= 8
      invariant chunk == MeasureNotes(p, measure, i)
    {
      var time := SlotTime(measure, i);
      var slot := [];
      if p.kick[i] {
        slot := slot + [Drum(KICK, time, 100)];
      }
      if p.snare[i] {
        slot := slot + [Drum(SNARE, time, 90)];
      }
      if p.hihat[i] {
        slot := slot + [Drum(HIHAT, time, 80)];
      }
      assert slot == SlotNotes(p, measure, i);
      chunk := chunk + slot;
      i := i + 1;
    }
  }

  /** The number of `true` entries among the first `i` of `s`. */
  function CountHits(s: seq<bool>, i: nat): (n: nat)
    requires i <= |s|
    ensures n <= i
  {
    if i == 0 then 0 else CountHits(s, i - 1) + (if s[i - 1] then 1 else 0)
  }

  /** Notes per measure: the hits of the three voices together. */
  function Hits(p: DrumPattern): nat
    requires p.Valid()
  {
    CountHits(p.kick, 8) + CountHits(p.snare, 8) + CountHits(p.hihat, 8)
  }

  lemma {:induction false} MeasureNotesCount(p: DrumPattern, measure: nat, i: nat)
    requires p.Valid() && i <= 8
    ensures |MeasureNotes(p, measure, i)| == CountHits(p.kick, i) + CountHits(p.snare, i) + CountHits(p.hihat, i)
  {
    if i > 0 {
      MeasureNotesCount(p, measure, i - 1);
    }
  }

  /** Every measure holds one note per hit of the pattern. */
  lemma {:induction false} DrumNotesCount(p: DrumPattern, measures: nat)
    requires p.Valid()
    ensures |DrumNotes(p, measures)| == measures * Hits(p)
  {
    if measures > 0 {
      DrumNotesCount(p, measures - 1);
      MeasureNotesCount(p, measures - 1, 8);
      assert (measures - 1) * Hits(p) + Hits(p) == measures * Hits(p);
    }
  }

  /** 'basic' gives 8 notes per measure, and so does any name other than
      'rock' and 'funk'. */
  lemma BasicHits(patternType: string)
    ensures Hits(BASIC) == 8
    ensures patternType != "rock" && patternType != "funk" ==> Hits(PatternFor(patternType)) == 8
  {
    assert CountHits(BASIC_KICK, 4) == 1;
    assert CountHits(BACKBEAT, 4) == 1;
    assert CountHits(QUARTERS, 4) == 2;
  }

  /** 'rock' gives 14 notes per measure. */
  lemma RockHits()
    ensures Hits(ROCK) == 14
  {
    assert CountHits(ROCK_KICK, 4) == 2;
    assert CountHits(BACKBEAT, 4) == 1;
    assert CountHits(EIGHTHS, 4) == 4;
  }

  /** 'funk' gives 13 notes per measure. */
  lemma FunkHits()
    ensures Hits(FUNK) == 13
  {
    assert CountHits(FUNK_KICK, 4) == 2;
    assert CountHits(BACKBEAT, 4) == 1;
    assert CountHits(EIGHTHS, 4) == 4;
  }

  /** The three drums on channel 9, each a sixteenth long. */
  predicate DrumVoices(ns: seq<Note>) {
    forall k :: 0 <= k < |ns| ==>
      ns[k].channel == 9 && ns[k].duration == 0.25 &&
      ((ns[k].pitch == KICK && ns[k].velocity == 100) ||
       (ns[k].pitch == SNARE && ns[k].velocity == 90) ||
       (ns[k].pitch == HIHAT && ns[k].velocity == 80))
  }

  lemma DrumVoicesConcat(a: seq<Note>, b: seq<Note>)
    requires DrumVoices(a) && DrumVoices(b)
    ensures DrumVoices(a + b)
  {
  }

  lemma SlotNotesShape(p: DrumPattern, measure: nat, i: nat)
    requires p.Valid() && i < 8
    ensures DrumVoices(SlotNotes(p, measure, i))
    ensures StartsSorted(SlotNotes(p, measure, i))
    ensures StartsWithin(SlotNotes(p, measure, i), SlotTime(measure, i), SlotTime(measure, i))
  {
  }

  /** The first `i` slots of measure `m` sound in order from `4m` to the
      start of slot `i - 1`. */
  lemma {:induction false} MeasureNotesShape(p: DrumPattern, measure: nat, i: nat)
    requires p.Valid() && 0 < i <= 8
    ensures DrumVoices(MeasureNotes(p, measure, i))
    ensures StartsSorted(MeasureNotes(p, measure, i))
    ensures StartsWithin(MeasureNotes(p, measure, i), SlotTime(measure, 0), SlotTime(measure, i - 1))
  {
    var a := MeasureNotes(p, measure, i - 1);
    var b := SlotNotes(p, measure, i - 1);
    assert MeasureNotes(p, measure, i) == a + b;
    SlotNotesShape(p, measure, i - 1);
    if i > 1 {
      MeasureNotesShape(p, measure, i - 1);
      DrumVoicesConcat(a, b);
      SortedConcat(a, b, SlotTime(measure, 0), SlotTime(measure, i - 2), SlotTime(measure, i - 1));
      WithinConcat(a, b, SlotTime(measure, 0), SlotTime(measure, i - 2), SlotTime(measure, i - 1));
    } else {
      assert a == [];
      assert a + b == b;
    }
  }

  /** Every note of createDrumPattern is a kick, snare or closed hi-hat on
      channel 9, a sixteenth long; the notes come in time order, from 0 to
      the last eighth of the last measure. */
  lemma {:induction false} DrumNotesShape(p: DrumPattern, measures: nat)
    requires p.Valid() && measures > 0
    ensures DrumVoices(DrumNotes(p, measures))
    ensures StartsSorted(DrumNotes(p, measures))
    ensures StartsWithin(DrumNotes(p, measures), 0.0, SlotTime(measures - 1, 7))
  {
    var a := DrumNotes(p, measures - 1);
    var b := MeasureNotes(p, measures - 1, 8);
    assert DrumNotes(p, measures) == a + b;
    MeasureNotesShape(p, measures - 1, 8);
    if measures > 1 {
      DrumNotesShape(p, measures - 1);
      DrumVoicesConcat(a, b);
      SortedConcat(a, b, 0.0, SlotTime(measures - 2, 7), SlotTime(measures - 1, 7));
      WithinConcat(a, b, 0.0, SlotTime(measures - 2, 7), SlotTime(measures - 1, 7));
    } else {
      assert a + b == b;
    }
  }

  // ---------------------------------------------------------------------
  // createArpeggio (lines 167-222)

  const ARPEGGIO_FALLBACK: seq<Note> := [Note(60, 0.0, 0.25, 80, 0), Note(64, 0.25, 0.25, 80, 0), Note(67, 0.5, 0.25, 80, 0)]

  /** allPitches after `octaves` rounds of the outer loop: the chord, then
      the chord an octave up, and so on. */
  function Expanded(chordNotes: seq<int>, octaves: nat): seq<int> {
    if octaves == 0 then [] else Expanded(chordNotes, octaves - 1) + Offset(12 * (octaves - 1), chordNotes)
  }

  /** Pitch `i` of allPitches is chord note `i % n` raised by `i / n`
      octaves. */
  lemma {:induction false} ExpandedContract(chordNotes: seq<int>, octaves: nat)
    ensures |Expanded(chordNotes, octaves)| == octaves * |chordNotes|
    ensures forall i :: 0 <= i < |Expanded(chordNotes, octaves)| ==>
              Expanded(chordNotes, octaves)[i] == chordNotes[i % |chordNotes|] + 12 * (i / |chordNotes|)
  {
    if octaves > 0 {
      var n := |chordNotes|;
      var a := Expanded(chordNotes, octaves - 1);
      var b := Offset(12 * (octaves - 1), chordNotes);
      assert Expanded(chordNotes, octaves) == a + b;
      ExpandedContract(chordNotes, octaves - 1);
      assert |a| + n == octaves * n;
      forall i | |a| <= i < |a| + |b|
        ensures (a + b)[i] == chordNotes[i % n] + 12 * (i / n)
      {
        RemainderUnique(i, n, octaves - 1, i - |a|);
      }
    }
  }

  /** The inner `chordNotes.forEach` of one octave. */
  method OctaveChunk(chordNotes: seq<int>, shift: int) returns (chunk: seq<int>)
    ensures chunk == Offset(shift, chordNotes)
  {
    chunk := [];
    var k := 0;
    while k < |chordNotes|
      invariant 0 <= k <= |chordNotes|
      invariant |chunk| == k && forall i :: 0 <= i < k ==> chunk[i] == shift + chordNotes[i]
    {
      chunk := chunk + [chordNotes[k] + shift];
      k := k + 1;
    }
  }

  /** The loop that fills allPitches. */
  method ExpandOctaves(chordNotes: seq<int>, octaveRange: int) returns (allPitches: seq<int>)
    ensures allPitches == Expanded(chordNotes, Rounds(octaveRange))
  {
    allPitches := [];
    var octave := 0;
    while octave < octaveRange
      invariant 0 <= octave <= Rounds(octaveRange)
      invariant allPitches == Expanded(chordNotes, octave)
    {
      var chunk := OctaveChunk(chordNotes, 12 * octave);
      assert Expanded(chordNotes, octave + 1) == allPitches + chunk;
      allPitches := allPitches + chunk;
      octave := octave + 1;
    }
  }

  /** The way down of 'updown': the descending order without its first
      (top) note. */
  function Descent(allPitches: seq<int>): seq<int> {
    var d := SortDesc(allPitches);
    if |d| >= 1 then d[1..] else []
  }

  /** patternPitches. 'random' takes the order `shuffled` that the shuffle
      produced; any other name plays 'up'. */
  function ArpPattern(allPitches: seq<int>, pattern: string, shuffled: seq<int>): seq<int> {
    if pattern == "down" then SortDesc(allPitches)
    else if pattern == "updown" then SortAsc(allPitches) + Descent(allPitches)
    else if pattern == "random" then shuffled
    else SortAsc(allPitches)
  }

  /** Every pattern but 'updown' is an ordering of allPitches: ascending for
      'up' and any unknown name, descending for 'down'. */
  lemma ArpPatternPermutes(allPitches: seq<int>, pattern: string, shuffled: seq<int>)
    requires pattern == "random" ==> multiset(shuffled) == multiset(allPitches)
    ensures pattern != "updown" ==> multiset(ArpPattern(allPitches, pattern, shuffled)) == multiset(allPitches)
    ensures pattern != "updown" && pattern != "down" && pattern != "random" ==> Ascending(ArpPattern(allPitches, pattern, shuffled))
    ensures pattern == "down" ==> Descending(ArpPattern(allPitches, pattern, shuffled))
  {
  }

  lemma DescentContract(allPitches: seq<int>)
    ensures |Descent(allPitches)| == if |allPitches| >= 1 then |allPitches| - 1 else 0
    ensures forall k :: 0 <= k < |Descent(allPitches)| ==>
              Descent(allPitches)[k] == SortAsc(allPitches)[|allPitches| - 2 - k]
  {
    var a := SortAsc(allPitches);
    assert SortDesc(allPitches) == Reverse(a);
    TailOfReverse(a);
  }

  lemma TailOfReverse(a: seq<int>)
    ensures var d := Reverse(a);
            var t := if |d| >= 1 then d[1..] else [];
            |t| == (if |a| >= 1 then |a| - 1 else 0) &&
            forall k :: 0 <= k < |t| ==> t[k] == a[|a| - 2 - k]
  {
  }

  /** 'updown' climbs through the sorted pitches and comes back down without
      repeating the top one: 2n - 1 pitches for n >= 1, ending on the
      lowest. */
  lemma UpDownShape(allPitches: seq<int>, shuffled: seq<int>)
    requires |allPitches| >= 1
    ensures |ArpPattern(allPitches, "updown", shuffled)| == 2 * |allPitches| - 1
    ensures ArpPattern(allPitches, "updown", shuffled)[..|allPitches|] == SortAsc(allPitches)
    ensures forall i :: |allPitches| <= i < 2 * |allPitches| - 1 ==>
              ArpPattern(allPitches, "updown", shuffled)[i] == SortAsc(allPitches)[2 * |allPitches| - 2 - i]
  {
    var a := SortAsc(allPitches);
    var t := Descent(allPitches);
    assert ArpPattern(allPitches, "updown", shuffled) == a + t;
    DescentContract(allPitches);
    assert (a + t)[..|a|] == a;
  }

  /** `currentTime` after `k` steps of `currentTime += noteDuration`. */
  function Advance(t: real, d: real, k: nat): real {
    if k == 0 then t else Advance(t, d, k - 1) + d
  }

  lemma {:induction false} AdvanceIsMultiple(t: real, d: real, k: nat)
    ensures Advance(t, d, k) == t + k as real * d
  {
    if k > 0 {
      AdvanceIsMultiple(t, d, k - 1);
    }
  }

  /** The first `n` arpeggio notes: note `k` plays pattern pitch `k`
      (cycling once per repeat) at the time reached after `k` steps. */
  function ArpNotes(pitches: seq<int>, startTime: real, noteDuration: real, n: nat): seq<Note> {
    if n == 0 || |pitches| == 0 then []
    else ArpNotes(pitches, startTime, noteDuration, n - 1) +
         [Note(Cycle(pitches, n - 1), Advance(startTime, noteDuration, n - 1), noteDuration, 80, 0)]
  }

  function Times(a: nat, b: nat): nat {
    a * b
  }

  /** createArpeggio: the fixed C-E-G fallback for a missing, non-array or
      empty chord; otherwise the pattern played `repeats` times. */
  method CreateArpeggio(chordNotes: Arg<int>, octaveRange: Option<int>, pattern: Option<string>,
                        noteDuration: Option<real>, startTime: Option<real>, repeats: Option<int>, shuffled: seq<int>)
    returns (notes: seq<Note>)
    requires chordNotes.Array? && pattern.GetOr("up") == "random" ==>
               multiset(shuffled) == multiset(Expanded(chordNotes.items, Rounds(octaveRange.GetOr(1))))
    ensures !chordNotes.Array? || |chordNotes.items| == 0 ==> notes == ARPEGGIO_FALLBACK
    ensures chordNotes.Array? && |chordNotes.items| > 0 ==>
              var pitches := ArpPattern(Expanded(chordNotes.items, Rounds(octaveRange.GetOr(1))), pattern.GetOr("up"), shuffled);
              notes == ArpNotes(pitches, startTime.GetOr(0.0), noteDuration.GetOr(0.25), Times(Rounds(repeats.GetOr(1)), |pitches|))
  {
    if !chordNotes.Array? || |chordNotes.items| == 0 {
      return ARPEGGIO_FALLBACK;
    }
    var allPitches := ExpandOctaves(chordNotes.items, octaveRange.GetOr(1));
    var patternPitches := ArpPattern(allPitches, pattern.GetOr("up"), shuffled);
    notes := ArpLoop(patternPitches, noteDuration.GetOr(0.25), startTime.GetOr(0.0), repeats.GetOr(1));
  }

  /** The loop that plays patternPitches `repeats` times, one note every
      `noteDuration`. */
  method ArpLoop(patternPitches: seq<int>, noteDuration: real, startTime: real, repeats: int) returns (notes: seq<Note>)
    ensures notes == ArpNotes(patternPitches, startTime, noteDuration, Times(Rounds(repeats), |patternPitches|))
  {
    var len := |patternPitches|;
    notes := [];
    var currentTime := startTime;
    var i := 0;
    while i < repeats
      invariant 0 <= i <= Rounds(repeats)
      invariant notes == ArpNotes(patternPitches, startTime, noteDuration, i * len)
      invariant currentTime == Advance(startTime, noteDuration, i * len)
    {
      var j := 0;
      while j < len
        invariant 0 <= j <= len
        invariant notes == ArpNotes(patternPitches, startTime, noteDuration, i * len + j)
        invariant currentTime == Advance(startTime, noteDuration, i * len + j)
      {
        CycleShift(patternPitches, i, j);
        notes := notes + [Note(patternPitches[j], currentTime, noteDuration, 80, 0)];
        currentTime := currentTime + noteDuration;
        j := j + 1;
      }
      assert i * len + len == (i + 1) * len;
      i := i + 1;
    }
  }

  lemma {:induction false} CycleShift<T>(s: seq<T>, i: nat, j: nat)
    requires j < |s|
    ensures Cycle(s, i * |s| + j) == s[j]
  {
    if i > 0 {
      CycleShift(s, i - 1, j);
      assert (i - 1) * |s| + j == i * |s| + j - |s|;
    }
  }

  lemma {:induction false} ArpNotesAt(pitches: seq<int>, startTime: real, noteDuration: real, n: nat, k: nat)
    requires |pitches| > 0 && k < n
    ensures |ArpNotes(pitches, startTime, noteDuration, n)| == n
    ensures ArpNotes(pitches, startTime, noteDuration, n)[k] ==
            Note(Cycle(pitches, k), Advance(startTime, noteDuration, k), noteDuration, 80, 0)
  {
    if k < n - 1 {
      ArpNotesAt(pitches, startTime, noteDuration, n - 1, k);
    } else if n > 1 {
      ArpNotesAt(pitches, startTime, noteDuration, n - 1, 0);
    }
  }

  /** Arpeggio note `k` plays `pattern[k % len]` at `startTime + k *
      noteDuration`; there are `n` notes. */
  lemma ArpNotesContract(pitches: seq<int>, startTime: real, noteDuration: real, n: nat)
    requires |pitches| > 0
    ensures |ArpNotes(pitches, startTime, noteDuration, n)| == n
    ensures forall k :: 0 <= k < n ==>
              ArpNotes(pitches, startTime, noteDuration, n)[k] ==
              Note(pitches[k % |pitches|], startTime + k as real * noteDuration, noteDuration, 80, 0)
  {
    if n > 0 {
      ArpNotesAt(pitches, startTime, noteDuration, n, 0);
    }
    forall k | 0 <= k < n
      ensures ArpNotes(pitches, startTime, noteDuration, n)[k] ==
              Note(pitches[k % |pitches|], startTime + k as real * noteDuration, noteDuration, 80, 0)
    {
      ArpNotesAt(pitches, startTime, noteDuration, n, k);
      CycleIsRemainder(pitches, k);
      AdvanceIsMultiple(startTime, noteDuration, k);
    }
  }

  // ---------------------------------------------------------------------
  // createRhythmicPattern (lines 225-272)

  const RHYTHM_FALLBACK: seq<Note> := [Note(60, 0.0, 0.5, 80, 0), Note(60, 0.5, 0.5, 80, 0)]

  /** An entry of `notePitches`: a single pitch, or an array played as a
      chord. */
  datatype PitchEntry = Single(pitch: int) | Chord(pitches: seq<int>)

  function PitchesOf(e: PitchEntry): seq<int> {
    match e
    case Single(p) => [p]
    case Chord(ps) => ps
  }

  /** The sum of |d| over the first `j` durations. */
  function AbsSum(ds: seq<real>, j: nat): (s: real)
    requires j <= |ds|
    ensures s >= 0.0
  {
    if j == 0 then 0.0 else AbsSum(ds, j - 1) + Abs(ds[j - 1])
  }

  /** The notes one duration emits at time `t`: nothing for a rest
      (duration <= 0), else one note per pitch of the entry. */
  function Emit(duration: real, e: PitchEntry, t: real): seq<Note> {
    if duration > 0.0 then Block(PitchesOf(e), |PitchesOf(e)|, t, duration, 80, 0) else []
  }

  /** A rest emits nothing; a note emits one note per pitch of its entry,
      all at `t`. */
  lemma EmitContract(duration: real, e: PitchEntry, t: real)
    ensures duration <= 0.0 ==> Emit(duration, e, t) == []
    ensures duration > 0.0 ==> |Emit(duration, e, t)| == |PitchesOf(e)|
    ensures forall k :: 0 <= k < |Emit(duration, e, t)| ==>
              Emit(duration, e, t)[k] == Note(PitchesOf(e)[k], t, duration, 80, 0) && duration > 0.0
  {
    if duration > 0.0 {
      BlockContract(PitchesOf(e), |PitchesOf(e)|, t, duration, 80, 0);
    }
  }

  lemma EmitTimes(duration: real, e: PitchEntry, t: real)
    ensures StartsSorted(Emit(duration, e, t)) && StartsWithin(Emit(duration, e, t), t, t)
  {
    EmitContract(duration, e, t);
  }

  /** The notes of the first `j` durations of one pass that starts at `t`:
      duration `k` sounds at `t` plus the sum of |earlier durations|. */
  function PassNotes(values: seq<real>, pitches: seq<PitchEntry>, t: real, j: nat): seq<Note>
    requires |pitches| > 0 && j <= |values|
  {
    if j == 0 then []
    else PassNotes(values, pitches, t, j - 1) + Emit(values[j - 1], Cycle(pitches, j - 1), t + AbsSum(values, j - 1))
  }

  /** The time at which pass `r` starts. */
  function PassStart(values: seq<real>, startTime: real, r: nat): (t: real)
    ensures t >= startTime
  {
    if r == 0 then startTime else PassStart(values, startTime, r - 1) + AbsSum(values, |values|)
  }

  lemma {:induction false} PassStartIsMultiple(values: seq<real>, startTime: real, r: nat)
    ensures PassStart(values, startTime, r) == startTime + r as real * AbsSum(values, |values|)
  {
    if r > 0 {
      PassStartIsMultiple(values, startTime, r - 1);
    }
  }

  function RhythmicNotes(values: seq<real>, pitches: seq<PitchEntry>, startTime: real, repeats: nat): seq<Note>
    requires |pitches| > 0
  {
    if repeats == 0 then []
    else RhythmicNotes(values, pitches, startTime, repeats - 1) +
         PassNotes(values, pitches, PassStart(values, startTime, repeats - 1), |values|)
  }

  /** createRhythmicPattern: the two-note fallback unless both arguments
      are non-empty arrays. */
  method CreateRhythmicPattern(noteValues: Arg<real>, notePitches: Arg<PitchEntry>, startTime: Option<real>,
                               repeats: Option<int>)
    returns (notes: seq<Note>)
    ensures !(noteValues.Array? && |noteValues.items| > 0 && notePitches.Array? && |notePitches.items| > 0) ==>
              notes == RHYTHM_FALLBACK
    ensures noteValues.Array? && |noteValues.items| > 0 && notePitches.Array? && |notePitches.items| > 0 ==>
              notes == RhythmicNotes(noteValues.items, notePitches.items, startTime.GetOr(0.0), Rounds(repeats.GetOr(1)))
  {
    if !(noteValues.Array? && |noteValues.items| > 0 && notePitches.Array? && |notePitches.items| > 0) {
      return RHYTHM_FALLBACK;
    }
    var values, pitches := noteValues.items, notePitches.items;
    var start, count := startTime.GetOr(0.0), repeats.GetOr(1);
    notes := [];
    var currentTime := start;
    var i := 0;
    while i < count
      invariant 0 <= i <= Rounds(count)
      invariant notes == RhythmicNotes(values, pitches, start, i)
      invariant currentTime == PassStart(values, start, i)
    {
      var pass;
      pass, currentTime := RhythmicPass(values, pitches, currentTime);
      notes := notes + pass;
      i := i + 1;
    }
  }

  /** The notes one pass of the inner loop pushes, and the time it advances
      to. */
  method RhythmicPass(noteValues: seq<real>, notePitches: seq<PitchEntry>, passStart: real)
    returns (notes: seq<Note>, currentTime: real)
    requires |notePitches| > 0
    ensures notes == PassNotes(noteValues, notePitches, passStart, |noteValues|)
    ensures currentTime == passStart + AbsSum(noteValues, |noteValues|)
  {
    notes, currentTime := [], passStart;
    var j := 0;
    while j < |noteValues|
      invariant 0 <= j <= |noteValues|
      invariant notes == PassNotes(noteValues, notePitches, passStart, j)
      invariant currentTime == passStart + AbsSum(noteValues, j)
    {
      var duration := noteValues[j];
      var chunk := DurationChunk(duration, notePitches, j, currentTime);
      notes := notes + chunk;
      currentTime := currentTime + Abs(duration);
      j := j + 1;
    }
  }

  /** The body of the inner loop for duration `j`: nothing for a rest, else
      one note per pitch of `notePitches[j % length]`. */
  method DurationChunk(duration: real, notePitches: seq<PitchEntry>, j: nat, currentTime: real) returns (chunk: seq<Note>)
    requires |notePitches| > 0
    ensures chunk == Emit(duration, Cycle(notePitches, j), currentTime)
  {
    chunk := [];
    if duration > 0.0 {
      CycleIsRemainder(notePitches, j);
      var pitches := PitchesOf(notePitches[j % |notePitches|]);
      chunk := BlockChunk(pitches, currentTime, duration, 80, 0);
    }
  }

  lemma {:induction false} PassNotesWithin(values: seq<real>, pitches: seq<PitchEntry>, t: real, j: nat)
    requires |pitches| > 0 && j <= |values|
    ensures StartsWithin(PassNotes(values, pitches, t, j), t, t + AbsSum(values, j))
  {
    if j > 0 {
      var tj := t + AbsSum(values, j - 1);
      var a := PassNotes(values, pitches, t, j - 1);
      var b := Emit(values[j - 1], Cycle(pitches, j - 1), tj);
      assert PassNotes(values, pitches, t, j) == a + b;
      PassNotesWithin(values, pitches, t, j - 1);
      EmitTimes(values[j - 1], Cycle(pitches, j - 1), tj);
      WithinConcat(a, b, t, tj, t + AbsSum(values, j));
    }
  }

  lemma {:induction false} PassNotesSorted(values: seq<real>, pitches: seq<PitchEntry>, t: real, j: nat)
    requires |pitches| > 0 && j <= |values|
    ensures StartsSorted(PassNotes(values, pitches, t, j))
  {
    if j > 0 {
      var tj := t + AbsSum(values, j - 1);
      var a := PassNotes(values, pitches, t, j - 1);
      var b := Emit(values[j - 1], Cycle(pitches, j - 1), tj);
      assert PassNotes(values, pitches, t, j) == a + b;
      PassNotesSorted(values, pitches, t, j - 1);
      PassNotesWithin(values, pitches, t, j - 1);
      EmitTimes(values[j - 1], Cycle(pitches, j - 1), tj);
      SortedConcat(a, b, t, tj, tj);
    }
  }

  /** The notes of createRhythmicPattern come in order of start time, from
      `startTime` up to the end of the last pass. */
  lemma {:induction false} RhythmicNotesTimes(values: seq<real>, pitches: seq<PitchEntry>, startTime: real, repeats: nat)
    requires |pitches| > 0
    ensures StartsSorted(RhythmicNotes(values, pitches, startTime, repeats))
    ensures StartsWithin(RhythmicNotes(values, pitches, startTime, repeats), startTime, PassStart(values, startTime, repeats))
  {
    if repeats > 0 {
      var t := PassStart(values, startTime, repeats - 1);
      var a := RhythmicNotes(values, pitches, startTime, repeats - 1);
      var b := PassNotes(values, pitches, t, |values|);
      assert RhythmicNotes(values, pitches, startTime, repeats) == a + b;
      RhythmicNotesTimes(values, pitches, startTime, repeats - 1);
      PassNotesWithin(values, pitches, t, |values|);
      PassNotesSorted(values, pitches, t, |values|);
      SortedConcat(a, b, startTime, t, PassStart(values, startTime, repeats));
      WithinConcat(a, b, startTime, t, PassStart(values, startTime, repeats));
    }
  }

  /** A pass of nothing but rests emits no note, though it still moves the
      time on by the sum of |durations|. */
  lemma {:induction false} PassNotesOfRests(values: seq<real>, pitches: seq<PitchEntry>, t: real, j: nat)
    requires |pitches| > 0 && j <= |values|
    requires forall k :: 0 <= k < j ==> values[k] <= 0.0
    ensures PassNotes(values, pitches, t, j) == []
  {
    if j > 0 {
      PassNotesOfRests(values, pitches, t, j - 1);
    }
  }
}
