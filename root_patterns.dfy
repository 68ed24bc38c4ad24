// midi-framework.js, `PatternGenerators` (lines 315-514) and the
// `SequenceOperations` that build new sequences (lines 520-537, 619-649).
// Every generator walks its input with a running `currentTime` and pushes
// notes; each method here is proved equal to a function that places every
// note at the time the source's accumulator reaches.
module RootPatterns {
  import opened JsSupport
  import opened Sorting
  import opened RootSequence
  import opened RootTheory

  /** `new MidiNote(pitch, time, duration)` with the default velocity 80 and
      channel 0. */
  function Plain(pitch: int, time: real, duration: real): MidiNote {
    MidiNote(pitch, time, duration, 80, 0)
  }

  /** Start times that never decrease along the list. */
  predicate StartsSorted(ns: seq<MidiNote>) {
    forall i, j :: 0 <= i < j < |ns| ==> ns[i].startTime <= ns[j].startTime
  }

  /** Every start time lies in [lo, hi]. */
  predicate StartsWithin(ns: seq<MidiNote>, lo: real, hi: real) {
    forall i :: 0 <= i < |ns| ==> lo <= ns[i].startTime <= hi
  }

  lemma WithinConcat(a: seq<MidiNote>, b: seq<MidiNote>, lo: real, mid: real, hi: real)
    requires StartsWithin(a, lo, mid) && StartsWithin(b, mid, hi) && lo <= mid <= hi
    ensures StartsWithin(a + b, lo, hi)
  {
  }

  lemma SortedConcat(a: seq<MidiNote>, b: seq<MidiNote>, lo: real, mid: real, hi: real)
    requires StartsSorted(a) && StartsSorted(b) && StartsWithin(a, lo, mid) && StartsWithin(b, mid, hi)
    ensures StartsSorted(a + b)
  {
  }

  /** The sum of |d| over the first `j` durations. */
  function AbsSum(ds: seq<real>, j: nat): (s: real)
    requires j <= |ds|
    ensures s >= 0.0
  {
    if j == 0 then 0.0 else AbsSum(ds, j - 1) + Abs(ds[j - 1])
  }

  // ---------------------------------------------------------------------
  // createRhythmicPattern

  /** An entry of `notePitches`: a single pitch, or an array played as a
      chord. */
  datatype PitchEntry = Single(pitch: int) | Chord(pitches: seq<int>)

  function PitchesOf(e: PitchEntry): seq<int> {
    match e
    case Single(p) => [p]
    case Chord(ps) => ps
  }

  /** The first `k` notes of a chord on `pitches`, all at `t`. */
  function ChordNotes(pitches: seq<int>, k: nat, t: real, duration: real): seq<MidiNote>
    requires k <= |pitches|
  {
    if k == 0 then [] else ChordNotes(pitches, k - 1, t, duration) + [Plain(pitches[k - 1], t, duration)]
  }

  lemma {:induction false} ChordNotesContract(pitches: seq<int>, k: nat, t: real, duration: real)
    requires k <= |pitches|
    ensures |ChordNotes(pitches, k, t, duration)| == k
    ensures forall i :: 0 <= i < k ==> ChordNotes(pitches, k, t, duration)[i] == Plain(pitches[i], t, duration)
  {
    if k > 0 {
      ChordNotesContract(pitches, k - 1, t, duration);
    }
  }

  /** The notes one duration emits at time `t`: nothing for a rest
      (duration <= 0), else one note per pitch of the entry. */
  function Emit(duration: real, e: PitchEntry, t: real): seq<MidiNote> {
    if duration > 0.0 then ChordNotes(PitchesOf(e), |PitchesOf(e)|, t, duration) else []
  }

  /** An emitted chord is one note per pitch, all at `t`. */
  lemma EmitContract(duration: real, e: PitchEntry, t: real)
    ensures duration <= 0.0 ==> Emit(duration, e, t) == []
    ensures duration > 0.0 ==> |Emit(duration, e, t)| == |PitchesOf(e)|
    ensures forall k :: 0 <= k < |Emit(duration, e, t)| ==>
              Emit(duration, e, t)[k] == Plain(PitchesOf(e)[k], t, duration) && duration > 0.0
  {
    if duration > 0.0 {
      ChordNotesContract(PitchesOf(e), |PitchesOf(e)|, t, duration);
    }
  }

  lemma EmitTimes(duration: real, e: PitchEntry, t: real)
    ensures StartsSorted(Emit(duration, e, t)) && StartsWithin(Emit(duration, e, t), t, t)
  {
    EmitContract(duration, e, t);
  }

  lemma EmitPlain(duration: real, e: PitchEntry, t: real)
    ensures PlainNotes(Emit(duration, e, t))
  {
    EmitContract(duration, e, t);
  }

  /** No rest, and the constructor's default velocity and channel. */
  predicate PlainNotes(ns: seq<MidiNote>) {
    forall k :: 0 <= k < |ns| ==> ns[k].duration > 0.0 && ns[k].velocity == 80 && ns[k].channel == 0
  }

  lemma PlainConcat(a: seq<MidiNote>, b: seq<MidiNote>)
    requires PlainNotes(a) && PlainNotes(b)
    ensures PlainNotes(a + b)
  {
  }

  /** The notes of the first `j` durations of one pass that starts at `t`:
      duration `k` sounds at `t` plus the sum of |earlier durations|. */
  function PassNotes(values: seq<real>, pitches: seq<PitchEntry>, t: real, j: nat): seq<MidiNote>
    requires |pitches| > 0 && j <= |values|
  {
    if j == 0 then []
    else PassNotes(values, pitches, t, j - 1) + Emit(values[j - 1], Cycle(pitches, j - 1), t + AbsSum(values, j - 1))
  }

  /** The time at which pass `r` starts: `startTime` plus `r` times the sum
      of |durations| (see PassStartIsMultiple). */
  function PassStart(values: seq<real>, startTime: real, r: nat): (t: real)
    ensures t >= startTime
  {
    if r == 0 then startTime else PassStart(values, startTime, r - 1) + AbsSum(values, |values|)
  }

  lemma {:induction false} PassStartIsMultiple(values: seq<real>, startTime: real, r: nat)
    ensures PassStart(values, startTime, r) == startTime + r as real * AbsSum(values, |values|)
  {
    if r > 0 {
      PassStartIsMultiple(values, startTime, r - 1);
    }
  }

  /** `repeats` passes, pass `i` starting where the previous one ended. */
  function RhythmicNotes(values: seq<real>, pitches: seq<PitchEntry>, startTime: real, repeats: nat): seq<MidiNote>
    requires |pitches| > 0
  {
    if repeats == 0 then []
    else RhythmicNotes(values, pitches, startTime, repeats - 1) +
         PassNotes(values, pitches, PassStart(values, startTime, repeats - 1), |values|)
  }

  /** createRhythmicPattern, starting at 0 with one pass by default. A
      negative `repeats` runs no pass. */
  method CreateRhythmicPattern(noteValues: seq<real>, notePitches: seq<PitchEntry>, startTime: Option<real>,
                               repeats: Option<int>)
    returns (notes: seq<MidiNote>)
    requires |notePitches| > 0
    ensures notes == RhythmicNotes(noteValues, notePitches, startTime.GetOr(0.0), Rounds(repeats.GetOr(1)))
  {
    var start, count := startTime.GetOr(0.0), repeats.GetOr(1);
    notes := [];
    var currentTime := start;
    var i := 0;
    while i < count
      invariant 0 <= i && (count >= 0 ==> i <= count) && (count < 0 ==> i == 0)
      invariant notes == RhythmicNotes(noteValues, notePitches, start, i)
      invariant currentTime == PassStart(noteValues, start, i)
    {
      var pass;
      pass, currentTime := RhythmicPass(noteValues, notePitches, currentTime);
      notes := notes + pass;
      i := i + 1;
    }
  }

  /** The notes one pass of the inner loop pushes, and the time it advances
      to: the sum of |durations| after the pass start. */
  method RhythmicPass(noteValues: seq<real>, notePitches: seq<PitchEntry>, passStart: real)
    returns (notes: seq<MidiNote>, currentTime: real)
    requires |notePitches| > 0
    ensures notes == PassNotes(noteValues, notePitches, passStart, |noteValues|)
    ensures currentTime == passStart + AbsSum(noteValues, |noteValues|)
  {
    notes, currentTime := [], passStart;
    var j := 0;
    while j < |noteValues|
      invariant 0 <= j <= |noteValues|
      invariant notes == PassNotes(noteValues, notePitches, passStart, j)
      invariant currentTime == passStart + AbsSum(noteValues, j)
    {
      var duration := noteValues[j];
      if duration > 0.0 {
        var chunk := ChordChunk(PitchesOf(Cycle(notePitches, j)), currentTime, duration);
        notes := notes + chunk;
      }
      currentTime := currentTime + Abs(duration);
      j := j + 1;
    }
  }

  /** `pitches.forEach(pitch => notes.push(new MidiNote(pitch, time, duration)))`:
      the notes pushed, one per pitch, all at `time`. */
  method ChordChunk(pitches: seq<int>, time: real, duration: real) returns (chunk: seq<MidiNote>)
    ensures chunk == ChordNotes(pitches, |pitches|, time, duration)
  {
    chunk := [];
    var k := 0;
    while k < |pitches|
      invariant 0 <= k <= |pitches|
      invariant chunk == ChordNotes(pitches, k, time, duration)
    {
      chunk := chunk + [Plain(pitches[k], time, duration)];
      k := k + 1;
    }
  }

  /** One pass starting at `t` emits at times from `t` up to
      `t + AbsSum(values, j)`. */
  lemma {:induction false} PassNotesWithin(values: seq<real>, pitches: seq<PitchEntry>, t: real, j: nat)
    requires |pitches| > 0 && j <= |values|
    ensures StartsWithin(PassNotes(values, pitches, t, j), t, t + AbsSum(values, j))
  {
    if j > 0 {
      var tj := t + AbsSum(values, j - 1);
      var a := PassNotes(values, pitches, t, j - 1);
      var b := Emit(values[j - 1], Cycle(pitches, j - 1), tj);
      assert PassNotes(values, pitches, t, j) == a + b;
      PassNotesWithin(values, pitches, t, j - 1);
      EmitTimes(values[j - 1], Cycle(pitches, j - 1), tj);
      WithinConcat(a, b, t, tj, t + AbsSum(values, j));
    }
  }

  /** The notes of one pass are in order of start time. */
  lemma {:induction false} PassNotesSorted(values: seq<real>, pitches: seq<PitchEntry>, t: real, j: nat)
    requires |pitches| > 0 && j <= |values|
    ensures StartsSorted(PassNotes(values, pitches, t, j))
  {
    if j > 0 {
      var tj := t + AbsSum(values, j - 1);
      var a := PassNotes(values, pitches, t, j - 1);
      var b := Emit(values[j - 1], Cycle(pitches, j - 1), tj);
      assert PassNotes(values, pitches, t, j) == a + b;
      PassNotesSorted(values, pitches, t, j - 1);
      PassNotesWithin(values, pitches, t, j - 1);
      EmitTimes(values[j - 1], Cycle(pitches, j - 1), tj);
      SortedConcat(a, b, t, tj, tj);
    }
  }

  /** Every note of createRhythmicPattern starts at or after `startTime`, no
      earlier than the note before it and no later than the end of the last
      pass; rests emit nothing and every note has a positive duration. */
  lemma {:induction false} RhythmicNotesTimes(values: seq<real>, pitches: seq<PitchEntry>, startTime: real, repeats: nat)
    requires |pitches| > 0
    ensures StartsSorted(RhythmicNotes(values, pitches, startTime, repeats))
    ensures StartsWithin(RhythmicNotes(values, pitches, startTime, repeats), startTime, PassStart(values, startTime, repeats))
  {
    if repeats > 0 {
      var t := PassStart(values, startTime, repeats - 1);
      var a := RhythmicNotes(values, pitches, startTime, repeats - 1);
      var b := PassNotes(values, pitches, t, |values|);
      assert RhythmicNotes(values, pitches, startTime, repeats) == a + b;
      RhythmicNotesTimes(values, pitches, startTime, repeats - 1);
      PassNotesWithin(values, pitches, t, |values|);
      PassNotesSorted(values, pitches, t, |values|);
      SortedConcat(a, b, startTime, t, PassStart(values, startTime, repeats));
      WithinConcat(a, b, startTime, t, PassStart(values, startTime, repeats));
    }
  }

  /** Every note a pass emits has a positive duration and the default
      velocity and channel. */
  lemma {:induction false} PassNotesPlain(values: seq<real>, pitches: seq<PitchEntry>, t: real, j: nat)
    requires |pitches| > 0 && j <= |values|
    ensures PlainNotes(PassNotes(values, pitches, t, j))
  {
    if j > 0 {
      var a := PassNotes(values, pitches, t, j - 1);
      var b := Emit(values[j - 1], Cycle(pitches, j - 1), t + AbsSum(values, j - 1));
      assert PassNotes(values, pitches, t, j) == a + b;
      PassNotesPlain(values, pitches, t, j - 1);
      EmitPlain(values[j - 1], Cycle(pitches, j - 1), t + AbsSum(values, j - 1));
      PlainConcat(a, b);
    }
  }

  /** A pass of nothing but rests emits no note. */
  lemma {:induction false} PassNotesOfRests(values: seq<real>, pitches: seq<PitchEntry>, t: real, j: nat)
    requires |pitches| > 0 && j <= |values|
    requires forall k :: 0 <= k < j ==> values[k] <= 0.0
    ensures PassNotes(values, pitches, t, j) == []
  {
    if j > 0 {
      PassNotesOfRests(values, pitches, t, j - 1);
    }
  }

  // ---------------------------------------------------------------------
  // createDrumPattern

  const KICK := 36
  const SNARE := 38
  const CLOSED_HH := 42

  /** The three voices of a drum pattern over the 16 sixteenths of a
      measure: `true` where the source's table holds 1. */
  datatype DrumPattern = DrumPattern(kick: seq<bool>, snare: seq<bool>, hihat: seq<bool>)
  {
    /** Every voice has one entry per sixteenth, so the source's
        `pattern.kick[i % pattern.kick.length]` is `kick[i]`. */
    predicate Valid() {
      |kick| == 16 && |snare| == 16 && |hihat| == 16
    }
  }

  const BASIC_KICK := [true, false, false, false, false, false, false, false, true, false, false, false, false, false, false, false]
  const ROCK_KICK := [true, false, false, false, true, false, false, false, true, false, false, false, true, false, false, false]
  const FUNK_KICK := [true, false, false, true, false, true, false, false, true, false, false, true, false, false, true, false]
  /** Snare on beats 2 and 4 ('basic' and 'rock'). */
  const BACKBEAT := [false, false, false, false, true, false, false, false, false, false, false, false, true, false, false, false]
  const FUNK_SNARE := [false, false, true, false, false, false, true, false, false, false, true, false, false, false, true, false]
  /** Hi-hat on every eighth ('basic' and 'rock'). */
  const EIGHTHS := [true, false, true, false, true, false, true, false, true, false, true, false, true, false, true, false]
  const SIXTEENTHS := [true, true, true, true, true, true, true, true, true, true, true, true, true, true, true, true]

  const BASIC := DrumPattern(BASIC_KICK, BACKBEAT, EIGHTHS)
  const ROCK := DrumPattern(ROCK_KICK, BACKBEAT, EIGHTHS)
  const FUNK := DrumPattern(FUNK_KICK, FUNK_SNARE, SIXTEENTHS)

  /** `patterns[patternType] || patterns.basic`. */
  function PatternFor(patternType: string): (p: DrumPattern)
    ensures p.Valid()
  {
    if patternType == "rock" then ROCK
    else if patternType == "funk" then FUNK
    else BASIC
  }

  /** `measure * 4 + i * 0.25` */
  function StepTime(measure: nat, i: nat): real {
    (4 * measure) as real + i as real * 0.25
  }

  function DrumNote(pitch: int, time: real, velocity: int): MidiNote {
    MidiNote(pitch, time, 0.25, velocity, 9)
  }

  /** The notes of sixteenth `i` of a measure: kick, then snare, then hi-hat,
      each where its voice has a hit. */
  function StepNotes(p: DrumPattern, measure: nat, i: nat): seq<MidiNote>
    requires p.Valid() && i < 16
  {
    var t := StepTime(measure, i);
    (if p.kick[i] then [DrumNote(KICK, t, 100)] else []) +
    (if p.snare[i] then [DrumNote(SNARE, t, 90)] else []) +
    (if p.hihat[i] then [DrumNote(CLOSED_HH, t, 80)] else [])
  }

  /** The notes of the first `i` sixteenths of one measure. */
  function MeasureNotes(p: DrumPattern, measure: nat, i: nat): seq<MidiNote>
    requires p.Valid() && i <= 16
  {
    if i == 0 then [] else MeasureNotes(p, measure, i - 1) + StepNotes(p, measure, i - 1)
  }

  /** The notes of the first `measures` measures. */
  function DrumNotes(p: DrumPattern, measures: nat): seq<MidiNote>
    requires p.Valid()
  {
    if measures == 0 then [] else DrumNotes(p, measures - 1) + MeasureNotes(p, measures - 1, 16)
  }

  /** createDrumPattern, with 'basic' and one measure by default. */
  method CreateDrumPattern(patternType: Option<string>, measures: Option<int>) returns (notes: seq<MidiNote>)
    ensures notes == DrumNotes(PatternFor(patternType.GetOr("basic")), Rounds(measures.GetOr(1)))
  {
    var pattern := PatternFor(patternType.GetOr("basic"));
    var count := measures.GetOr(1);
    notes := [];
    var measure := 0;
    while measure < count
      invariant 0 <= measure && (count >= 0 ==> measure <= count) && (count < 0 ==> measure == 0)
      invariant notes == DrumNotes(pattern, measure)
    {
      var chunk := DrumMeasure(pattern, measure);
      notes := notes + chunk;
      measure := measure + 1;
    }
  }

  /** The inner loop over the 16 sixteenths of one measure. */
  method DrumMeasure(p: DrumPattern, measure: nat) returns (chunk: seq<MidiNote>)
    requires p.Valid()
    ensures chunk == MeasureNotes(p, measure, 16)
  {
    chunk := [];
    var i := 0;
    while i < 16
      invariant 0 <= i <= 16
      invariant chunk == MeasureNotes(p, measure, i)
    {
      var time := StepTime(measure, i);
      var step := [];
      if p.kick[i] {
        step := step + [DrumNote(KICK, time, 100)];
      }
      if p.snare[i] {
        step := step + [DrumNote(SNARE, time, 90)];
      }
      if p.hihat[i] {
        step := step + [DrumNote(CLOSED_HH, time, 80)];
      }
      assert step == StepNotes(p, measure, i);
      chunk := chunk + step;
      i := i + 1;
    }
  }

  /** The number of `true` entries among the first `i` of `s`. */
  function CountHits(s: seq<bool>, i: nat): (n: nat)
    requires i <= |s|
    ensures n <= i
  {
    if i == 0 then 0 else CountHits(s, i - 1) + (if s[i - 1] then 1 else 0)
  }

  /** Notes per measure: the hits of the three voices together. */
  function Hits(p: DrumPattern): nat
    requires p.Valid()
  {
    CountHits(p.kick, 16) + CountHits(p.snare, 16) + CountHits(p.hihat, 16)
  }

  lemma {:induction false} MeasureNotesCount(p: DrumPattern, measure: nat, i: nat)
    requires p.Valid() && i <= 16
    ensures |MeasureNotes(p, measure, i)| == CountHits(p.kick, i) + CountHits(p.snare, i) + CountHits(p.hihat, i)
  {
    if i > 0 {
      MeasureNotesCount(p, measure, i - 1);
    }
  }

  /** Every measure holds one note per hit of the pattern. */
  lemma {:induction false} DrumNotesCount(p: DrumPattern, measures: nat)
    requires p.Valid()
    ensures |DrumNotes(p, measures)| == measures * Hits(p)
  {
    if measures > 0 {
      DrumNotesCount(p, measures - 1);
      MeasureNotesCount(p, measures - 1, 16);
      assert (measures - 1) * Hits(p) + Hits(p) == measures * Hits(p);
    }
  }

  /** The hit count of each voice table. */
  lemma BasicKickHits()
    ensures CountHits(BASIC_KICK, 16) == 2
  {
    assert CountHits(BASIC_KICK, 8) == 1;
  }

  lemma RockKickHits()
    ensures CountHits(ROCK_KICK, 16) == 4
  {
    assert CountHits(ROCK_KICK, 8) == 2;
  }

  lemma FunkKickHits()
    ensures CountHits(FUNK_KICK, 16) == 6
  {
    assert CountHits(FUNK_KICK, 8) == 3;
  }

  lemma BackbeatHits()
    ensures CountHits(BACKBEAT, 16) == 2
  {
    assert CountHits(BACKBEAT, 8) == 1;
  }

  lemma FunkSnareHits()
    ensures CountHits(FUNK_SNARE, 16) == 4
  {
    assert CountHits(FUNK_SNARE, 8) == 2;
  }

  lemma EighthsHits()
    ensures CountHits(EIGHTHS, 16) == 8
  {
    assert CountHits(EIGHTHS, 8) == 4;
  }

  lemma SixteenthsHits()
    ensures CountHits(SIXTEENTHS, 16) == 16
  {
    assert CountHits(SIXTEENTHS, 8) == 8;
  }

  /** 'basic' has 12 hits per measure, and so does any pattern name other
      than 'rock' and 'funk'. */
  lemma BasicHits(patternType: string)
    ensures Hits(BASIC) == 12
    ensures patternType != "rock" && patternType != "funk" ==> Hits(PatternFor(patternType)) == 12
  {
    BasicKickHits();
    BackbeatHits();
    EighthsHits();
  }

  /** 'rock' has 14 hits per measure. */
  lemma RockHits()
    ensures Hits(ROCK) == 14
  {
    RockKickHits();
    BackbeatHits();
    EighthsHits();
  }

  /** 'funk' has 26 hits per measure. */
  lemma FunkHits()
    ensures Hits(FUNK) == 26
  {
    FunkKickHits();
    FunkSnareHits();
    SixteenthsHits();
  }

  /** The three drum voices on channel 9, each a sixteenth long. */
  predicate DrumVoices(ns: seq<MidiNote>) {
    forall k :: 0 <= k < |ns| ==>
      ns[k].channel == 9 && ns[k].duration == 0.25 &&
      ((ns[k].pitch == KICK && ns[k].velocity == 100) ||
       (ns[k].pitch == SNARE && ns[k].velocity == 90) ||
       (ns[k].pitch == CLOSED_HH && ns[k].velocity == 80))
  }

  lemma DrumVoicesConcat(a: seq<MidiNote>, b: seq<MidiNote>)
    requires DrumVoices(a) && DrumVoices(b)
    ensures DrumVoices(a + b)
  {
  }

  /** Every start time is strictly below `hi`. */
  predicate StartsBelow(ns: seq<MidiNote>, hi: real) {
    forall i :: 0 <= i < |ns| ==> ns[i].startTime < hi
  }

  lemma BelowConcat(a: seq<MidiNote>, b: seq<MidiNote>, hi: real)
    requires StartsBelow(a, hi) && StartsBelow(b, hi)
    ensures StartsBelow(a + b, hi)
  {
  }

  lemma StepNotesShape(p: DrumPattern, measure: nat, i: nat)
    requires p.Valid() && i < 16
    ensures DrumVoices(StepNotes(p, measure, i))
    ensures StartsSorted(StepNotes(p, measure, i))
    ensures StartsWithin(StepNotes(p, measure, i), StepTime(measure, i), StepTime(measure, i + 1))
    ensures StartsBelow(StepNotes(p, measure, i), StepTime(measure, i + 1))
  {
  }

  /** The first `i` sixteenths of measure `m` sound in order from `4m`, each
      before sixteenth `i` begins. */
  lemma {:induction false} MeasureNotesShape(p: DrumPattern, measure: nat, i: nat)
    requires p.Valid() && i <= 16
    ensures DrumVoices(MeasureNotes(p, measure, i))
    ensures StartsSorted(MeasureNotes(p, measure, i))
    ensures StartsWithin(MeasureNotes(p, measure, i), StepTime(measure, 0), StepTime(measure, i))
    ensures StartsBelow(MeasureNotes(p, measure, i), StepTime(measure, i))
  {
    if i > 0 {
      var a := MeasureNotes(p, measure, i - 1);
      var b := StepNotes(p, measure, i - 1);
      assert MeasureNotes(p, measure, i) == a + b;
      MeasureNotesShape(p, measure, i - 1);
      StepNotesShape(p, measure, i - 1);
      DrumVoicesConcat(a, b);
      SortedConcat(a, b, StepTime(measure, 0), StepTime(measure, i - 1), StepTime(measure, i));
      WithinConcat(a, b, StepTime(measure, 0), StepTime(measure, i - 1), StepTime(measure, i));
      BelowConcat(a, b, StepTime(measure, i));
    }
  }

  /** Every note of createDrumPattern is a kick, snare or closed hi-hat on
      channel 9, a sixteenth long; the notes come in time order, all within
      [0, 4 * measures). */
  lemma {:induction false} DrumNotesShape(p: DrumPattern, measures: nat)
    requires p.Valid()
    ensures DrumVoices(DrumNotes(p, measures))
    ensures StartsSorted(DrumNotes(p, measures))
    ensures StartsWithin(DrumNotes(p, measures), 0.0, (4 * measures) as real)
    ensures StartsBelow(DrumNotes(p, measures), (4 * measures) as real)
  {
    if measures > 0 {
      var a := DrumNotes(p, measures - 1);
      var b := MeasureNotes(p, measures - 1, 16);
      assert DrumNotes(p, measures) == a + b;
      DrumNotesShape(p, measures - 1);
      MeasureNotesShape(p, measures - 1, 16);
      DrumVoicesConcat(a, b);
      SortedConcat(a, b, 0.0, StepTime(measures - 1, 0), StepTime(measures - 1, 16));
      WithinConcat(a, b, 0.0, StepTime(measures - 1, 0), StepTime(measures - 1, 16));
      BelowConcat(a, b, (4 * measures) as real);
    }
  }

  // ---------------------------------------------------------------------
  // createArpeggio

  /** allNotes after `octaves` rounds of the outer loop: the chord, then the
      chord an octave up, and so on. */
  function Expanded(chordNotes: seq<int>, octaves: nat): seq<int> {
    if octaves == 0 then [] else Expanded(chordNotes, octaves - 1) + Offset(12 * (octaves - 1), chordNotes)
  }

  /** Note `i` of allNotes is chord note `i % n` raised by `i / n` octaves. */
  lemma {:induction false} ExpandedContract(chordNotes: seq<int>, octaves: nat)
    ensures |Expanded(chordNotes, octaves)| == octaves * |chordNotes|
    ensures forall i :: 0 <= i < |Expanded(chordNotes, octaves)| ==>
              Expanded(chordNotes, octaves)[i] == chordNotes[i % |chordNotes|] + 12 * (i / |chordNotes|)
  {
    if octaves > 0 {
      var n := |chordNotes|;
      var a := Expanded(chordNotes, octaves - 1);
      var b := Offset(12 * (octaves - 1), chordNotes);
      assert Expanded(chordNotes, octaves) == a + b;
      ExpandedContract(chordNotes, octaves - 1);
      assert |a| + n == octaves * n;
      forall i | |a| <= i < |a| + |b|
        ensures (a + b)[i] == chordNotes[i % n] + 12 * (i / n)
      {
        RemainderUnique(i, n, octaves - 1, i - |a|);
      }
    }
  }

  /** The inner `chordNotes.forEach` of one octave. */
  method OctaveChunk(chordNotes: seq<int>, shift: int) returns (chunk: seq<int>)
    ensures chunk == Offset(shift, chordNotes)
  {
    chunk := [];
    var k := 0;
    while k < |chordNotes|
      invariant 0 <= k <= |chordNotes|
      invariant |chunk| == k && forall i :: 0 <= i < k ==> chunk[i] == shift + chordNotes[i]
    {
      chunk := chunk + [chordNotes[k] + shift];
      k := k + 1;
    }
  }

  /** The loop that fills allNotes. */
  method ExpandOctaves(chordNotes: seq<int>, octaveRange: int) returns (allNotes: seq<int>)
    ensures allNotes == Expanded(chordNotes, Rounds(octaveRange))
  {
    allNotes := [];
    var octave := 0;
    while octave < octaveRange
      invariant 0 <= octave && (octaveRange >= 0 ==> octave <= octaveRange) && (octaveRange < 0 ==> octave == 0)
      invariant allNotes == Expanded(chordNotes, octave)
    {
      var chunk := OctaveChunk(chordNotes, 12 * octave);
      assert Expanded(chordNotes, octave + 1) == allNotes + chunk;
      allNotes := allNotes + chunk;
      octave := octave + 1;
    }
  }

  /** `[...allNotes].sort(desc)` without its first and last element, as
      `slice(1, -1)` takes it. */
  function UpDownTail(allNotes: seq<int>): seq<int> {
    var d := SortDesc(allNotes);
    if |d| >= 2 then d[1..|d| - 1] else []
  }

  /** patternNotes. 'random' takes the order `shuffled` that the shuffle
      produced; an unknown pattern plays 'up'. */
  function ArpPattern(allNotes: seq<int>, pattern: string, shuffled: seq<int>): seq<int> {
    if pattern == "down" then SortDesc(allNotes)
    else if pattern == "updown" then SortAsc(allNotes) + UpDownTail(allNotes)
    else if pattern == "random" then shuffled
    else SortAsc(allNotes)
  }

  /** Every pattern but 'updown' is an ordering of allNotes: ascending for
      'up' and any unknown name, descending for 'down'. */
  lemma ArpPatternPermutes(allNotes: seq<int>, pattern: string, shuffled: seq<int>)
    requires pattern == "random" ==> multiset(shuffled) == multiset(allNotes)
    ensures pattern != "updown" ==> multiset(ArpPattern(allNotes, pattern, shuffled)) == multiset(allNotes)
    ensures pattern != "updown" && pattern != "down" && pattern != "random" ==> Ascending(ArpPattern(allNotes, pattern, shuffled))
    ensures pattern == "down" ==> Descending(ArpPattern(allNotes, pattern, shuffled))
  {
  }

  /** The way down of 'updown' is the ascending order read backwards from
      its next-to-last note to its second. */
  lemma UpDownTailContract(allNotes: seq<int>)
    ensures |UpDownTail(allNotes)| == if |allNotes| >= 2 then |allNotes| - 2 else 0
    ensures forall k :: 0 <= k < |UpDownTail(allNotes)| ==>
              UpDownTail(allNotes)[k] == SortAsc(allNotes)[|allNotes| - 2 - k]
  {
    var a := SortAsc(allNotes);
    var d := SortDesc(allNotes);
    assert d == Reverse(a);
    assert UpDownTail(allNotes) == if |d| >= 2 then d[1..|d| - 1] else [];
    InnerOfReverse(a);
  }

  lemma InnerOfReverse(a: seq<int>)
    ensures var d := Reverse(a);
            var t := if |d| >= 2 then d[1..|d| - 1] else [];
            |t| == (if |a| >= 2 then |a| - 2 else 0) &&
            forall k :: 0 <= k < |t| ==> t[k] == a[|a| - 2 - k]
  {
  }

  /** 'updown' is the ascending order followed by its way down. */
  lemma UpDownSplits(allNotes: seq<int>, shuffled: seq<int>)
    ensures ArpPattern(allNotes, "updown", shuffled) == SortAsc(allNotes) + UpDownTail(allNotes)
  {
  }

  /** 'updown' climbs through the sorted notes and comes back down without
      repeating the top or the bottom note, so that repeats loop smoothly:
      2n - 2 pitches for n >= 2 notes. */
  lemma UpDownShape(allNotes: seq<int>, shuffled: seq<int>)
    ensures |ArpPattern(allNotes, "updown", shuffled)| == if |allNotes| >= 2 then 2 * |allNotes| - 2 else |allNotes|
    ensures ArpPattern(allNotes, "updown", shuffled)[..|allNotes|] == SortAsc(allNotes)
    ensures forall i :: |allNotes| <= i < |ArpPattern(allNotes, "updown", shuffled)| ==>
              ArpPattern(allNotes, "updown", shuffled)[i] == SortAsc(allNotes)[2 * |allNotes| - 2 - i]
  {
    var a := SortAsc(allNotes);
    var t := UpDownTail(allNotes);
    UpDownSplits(allNotes, shuffled);
    UpDownTailContract(allNotes);
    Halves(a, t);
  }

  lemma Halves(a: seq<int>, t: seq<int>)
    ensures (a + t)[..|a|] == a
    ensures forall i :: |a| <= i < |a| + |t| ==> (a + t)[i] == t[i - |a|]
  {
  }

  /** `currentTime` after `k` steps of `currentTime += noteDuration`. */
  function Advance(t: real, d: real, k: nat): real {
    if k == 0 then t else Advance(t, d, k - 1) + d
  }

  lemma {:induction false} AdvanceIsMultiple(t: real, d: real, k: nat)
    ensures Advance(t, d, k) == t + k as real * d
  {
    if k > 0 {
      AdvanceIsMultiple(t, d, k - 1);
    }
  }

  /** The first `n` arpeggio notes: note `k` plays pattern note `k` (cycling
      through the pattern once per repeat) at the time reached after `k`
      steps. An empty pattern plays nothing. */
  function ArpNotes(pitches: seq<int>, startTime: real, noteDuration: real, n: nat): seq<MidiNote> {
    if n == 0 || |pitches| == 0 then []
    else ArpNotes(pitches, startTime, noteDuration, n - 1) +
         [Plain(Cycle(pitches, n - 1), Advance(startTime, noteDuration, n - 1), noteDuration)]
  }

  /** createArpeggio, by default over one octave, 'up', in sixteenths
      (0.25 beats) from 0, once. */
  method CreateArpeggio(chordNotes: seq<int>, octaveRange: Option<int>, pattern: Option<string>,
                        noteDuration: Option<real>, startTime: Option<real>, repeats: Option<int>, shuffled: seq<int>)
    returns (notes: seq<MidiNote>)
    requires pattern.GetOr("up") == "random" ==>
               multiset(shuffled) == multiset(Expanded(chordNotes, Rounds(octaveRange.GetOr(1))))
    ensures var pitches := ArpPattern(Expanded(chordNotes, Rounds(octaveRange.GetOr(1))), pattern.GetOr("up"), shuffled);
            notes == ArpNotes(pitches, startTime.GetOr(0.0), noteDuration.GetOr(0.25),
                              Times(Rounds(repeats.GetOr(1)), |pitches|))
  {
    var allNotes := ExpandOctaves(chordNotes, octaveRange.GetOr(1));
    var patternNotes := ArpPattern(allNotes, pattern.GetOr("up"), shuffled);
    notes := ArpLoop(patternNotes, noteDuration.GetOr(0.25), startTime.GetOr(0.0), repeats.GetOr(1));
  }

  function Times(a: nat, b: nat): nat {
    a * b
  }

  /** The loop that plays patternNotes `repeats` times, one note every
      `noteDuration`. */
  method ArpLoop(patternNotes: seq<int>, noteDuration: real, startTime: real, repeats: int) returns (notes: seq<MidiNote>)
    ensures notes == ArpNotes(patternNotes, startTime, noteDuration, Times(Rounds(repeats), |patternNotes|))
  {
    var len := |patternNotes|;
    notes := [];
    var currentTime := startTime;
    var i := 0;
    while i < repeats
      invariant 0 <= i && (repeats >= 0 ==> i <= repeats) && (repeats < 0 ==> i == 0)
      invariant notes == ArpNotes(patternNotes, startTime, noteDuration, i * len)
      invariant currentTime == Advance(startTime, noteDuration, i * len)
    {
      var j := 0;
      while j < len
        invariant 0 <= j <= len
        invariant notes == ArpNotes(patternNotes, startTime, noteDuration, i * len + j)
        invariant currentTime == Advance(startTime, noteDuration, i * len + j)
      {
        CycleShift(patternNotes, i, j);
        notes := notes + [Plain(patternNotes[j], currentTime, noteDuration)];
        currentTime := currentTime + noteDuration;
        j := j + 1;
      }
      assert i * len + len == (i + 1) * len;
      i := i + 1;
    }
  }

  lemma {:induction false} CycleShift<T>(s: seq<T>, i: nat, j: nat)
    requires j < |s|
    ensures Cycle(s, i * |s| + j) == s[j]
  {
    if i > 0 {
      CycleShift(s, i - 1, j);
      assert (i - 1) * |s| + j == i * |s| + j - |s|;
    }
  }

  lemma {:induction false} ArpNotesAt(pitches: seq<int>, startTime: real, noteDuration: real, n: nat, k: nat)
    requires |pitches| > 0 && k < n
    ensures |ArpNotes(pitches, startTime, noteDuration, n)| == n
    ensures ArpNotes(pitches, startTime, noteDuration, n)[k] ==
            Plain(Cycle(pitches, k), Advance(startTime, noteDuration, k), noteDuration)
  {
    if k < n - 1 {
      ArpNotesAt(pitches, startTime, noteDuration, n - 1, k);
    } else if n > 1 {
      ArpNotesAt(pitches, startTime, noteDuration, n - 1, 0);
    }
  }

  /** Arpeggio note `k` plays `pattern[k % len]` at `startTime + k *
      noteDuration` for `noteDuration`; there are `n` notes. */
  lemma ArpNotesContract(pitches: seq<int>, startTime: real, noteDuration: real, n: nat)
    requires |pitches| > 0
    ensures |ArpNotes(pitches, startTime, noteDuration, n)| == n
    ensures forall k :: 0 <= k < n ==>
              ArpNotes(pitches, startTime, noteDuration, n)[k] ==
              Plain(pitches[k % |pitches|], startTime + k as real * noteDuration, noteDuration)
  {
    if n > 0 {
      ArpNotesAt(pitches, startTime, noteDuration, n, 0);
    }
    forall k | 0 <= k < n
      ensures ArpNotes(pitches, startTime, noteDuration, n)[k] ==
              Plain(pitches[k % |pitches|], startTime + k as real * noteDuration, noteDuration)
    {
      ArpNotesAt(pitches, startTime, noteDuration, n, k);
      CycleIsRemainder(pitches, k);
      AdvanceIsMultiple(startTime, noteDuration, k);
    }
  }

  // ---------------------------------------------------------------------
  // createChordProgression

  /** The sum of the first `i` rhythm values, the pattern repeated end to
      end. */
  function RhythmSum(rhythm: seq<real>, i: nat): real
    requires |rhythm| > 0
  {
    if i == 0 then 0.0 else RhythmSum(rhythm, i - 1) + Cycle(rhythm, i - 1)
  }

  /** The notes of the first `i` chords: chord `i` sounds all its notes at
      `startTime + RhythmSum(rhythm, i)` for `rhythmPattern[i % length]`. */
  function ProgressionNotes(chords: seq<ProgressionChord>, rhythm: seq<real>, startTime: real, i: nat): seq<MidiNote>
    requires |rhythm| > 0 && i <= |chords|
  {
    if i == 0 then []
    else ProgressionNotes(chords, rhythm, startTime, i - 1) +
         ChordNotes(chords[i - 1].notes, |chords[i - 1].notes|, startTime + RhythmSum(rhythm, i - 1), Cycle(rhythm, i - 1))
  }

  /** createChordProgression, one beat per chord from 0 by default. */
  method CreateChordProgression(progression: seq<ProgressionChord>, rhythmPattern: Option<seq<real>>,
                                startTime: Option<real>)
    returns (notes: seq<MidiNote>)
    requires |rhythmPattern.GetOr([1.0])| > 0
    ensures notes == ProgressionNotes(progression, rhythmPattern.GetOr([1.0]), startTime.GetOr(0.0), |progression|)
  {
    var rhythm, start := rhythmPattern.GetOr([1.0]), startTime.GetOr(0.0);
    notes := [];
    var currentTime := start;
    var i := 0;
    while i < |progression|
      invariant 0 <= i <= |progression|
      invariant notes == ProgressionNotes(progression, rhythm, start, i)
      invariant currentTime == start + RhythmSum(rhythm, i)
    {
      CycleIsRemainder(rhythm, i);
      var rhythmValue := rhythm[i % |rhythm|];
      var chunk := ChordChunk(progression[i].notes, currentTime, rhythmValue);
      notes := notes + chunk;
      currentTime := currentTime + rhythmValue;
      i := i + 1;
    }
  }

  /** The number of chord notes in the first `i` chords. */
  function ChordNoteCount(chords: seq<ProgressionChord>, i: nat): nat
    requires i <= |chords|
  {
    if i == 0 then 0 else ChordNoteCount(chords, i - 1) + |chords[i - 1].notes|
  }

  lemma {:induction false} ProgressionNotesCount(chords: seq<ProgressionChord>, rhythm: seq<real>, startTime: real, i: nat)
    requires |rhythm| > 0 && i <= |chords|
    ensures |ProgressionNotes(chords, rhythm, startTime, i)| == ChordNoteCount(chords, i)
  {
    if i > 0 {
      ProgressionNotesCount(chords, rhythm, startTime, i - 1);
      ChordNotesContract(chords[i - 1].notes, |chords[i - 1].notes|, startTime + RhythmSum(rhythm, i - 1), Cycle(rhythm, i - 1));
    }
  }

  /** Later chords only append: the first `i` chords' notes stay in place. */
  lemma {:induction false} ProgressionNotesPrefix(chords: seq<ProgressionChord>, rhythm: seq<real>, startTime: real, i: nat, j: nat)
    requires |rhythm| > 0 && i <= j <= |chords|
    ensures ProgressionNotes(chords, rhythm, startTime, i) <= ProgressionNotes(chords, rhythm, startTime, j)
  {
    if i < j {
      ProgressionNotesPrefix(chords, rhythm, startTime, i, j - 1);
    }
  }

  /** Note `k` of chord `i` is the chord's `k`-th pitch, starting when the
      first `i` rhythm values have passed and lasting the `i`-th one: all
      notes of a chord share their start, with velocity 80 on channel 0. */
  lemma ProgressionChordNote(chords: seq<ProgressionChord>, rhythm: seq<real>, startTime: real, i: nat, k: nat)
    requires |rhythm| > 0 && i < |chords| && k < |chords[i].notes|
    ensures var notes := ProgressionNotes(chords, rhythm, startTime, |chords|);
            ChordNoteCount(chords, i) + k < |notes| &&
            notes[ChordNoteCount(chords, i) + k] ==
            MidiNote(chords[i].notes[k], startTime + RhythmSum(rhythm, i), rhythm[i % |rhythm|], 80, 0)
  {
    var a := ProgressionNotes(chords, rhythm, startTime, i);
    var b := ChordNotes(chords[i].notes, |chords[i].notes|, startTime + RhythmSum(rhythm, i), Cycle(rhythm, i));
    assert ProgressionNotes(chords, rhythm, startTime, i + 1) == a + b;
    ProgressionNotesCount(chords, rhythm, startTime, i);
    ChordNotesContract(chords[i].notes, |chords[i].notes|, startTime + RhythmSum(rhythm, i), Cycle(rhythm, i));
    ProgressionNotesPrefix(chords, rhythm, startTime, i + 1, |chords|);
    CycleIsRemainder(rhythm, i);
    assert (a + b)[|a| + k] == b[k];
  }

  // ---------------------------------------------------------------------
  // createBassline

  function BassNote(pitch: int, time: real, duration: real): MidiNote {
    MidiNote(pitch, time, duration, 90, 1)
  }

  /** The notes of the first `j` rhythm values over one chord: a rest
      (duration <= 0) emits nothing, and every value advances by |d|. */
  function BassPass(rhythm: seq<real>, pitch: int, t: real, j: nat): seq<MidiNote>
    requires j <= |rhythm|
  {
    if j == 0 then []
    else BassPass(rhythm, pitch, t, j - 1) +
         (if rhythm[j - 1] > 0.0 then [BassNote(pitch, t + AbsSum(rhythm, j - 1), rhythm[j - 1])] else [])
  }

  /** Every chord has a first note to take the root from. */
  predicate HasRoots(chords: seq<ProgressionChord>) {
    forall i :: 0 <= i < |chords| ==> |chords[i].notes| > 0
  }

  /** The notes of the first `c` chords: chord `c` plays its first note an
      octave down over the whole rhythm, starting where chord `c - 1`
      stopped. */
  function BassNotes(chords: seq<ProgressionChord>, rhythm: seq<real>, startTime: real, c: nat): seq<MidiNote>
    requires HasRoots(chords) && c <= |chords|
  {
    if c == 0 then []
    else BassNotes(chords, rhythm, startTime, c - 1) +
         BassPass(rhythm, chords[c - 1].notes[0] - 12, PassStart(rhythm, startTime, c - 1), |rhythm|)
  }

  /** createBassline, by default a beat and two half beats per chord, from 0. */
  method CreateBassline(progression: seq<ProgressionChord>, rhythmPattern: Option<seq<real>>, startTime: Option<real>)
    returns (notes: seq<MidiNote>)
    requires HasRoots(progression)
    ensures notes == BassNotes(progression, rhythmPattern.GetOr([1.0, 0.5, 0.5]), startTime.GetOr(0.0), |progression|)
  {
    var rhythm, start := rhythmPattern.GetOr([1.0, 0.5, 0.5]), startTime.GetOr(0.0);
    notes := [];
    var currentTime := start;
    var c := 0;
    while c < |progression|
      invariant 0 <= c <= |progression|
      invariant notes == BassNotes(progression, rhythm, start, c)
      invariant currentTime == PassStart(rhythm, start, c)
    {
      var rootNote := progression[c].notes[0];
      var chunk;
      chunk, currentTime := BassChunk(rhythm, rootNote - 12, currentTime);
      notes := notes + chunk;
      c := c + 1;
    }
  }

  /** The inner `rhythmPattern.forEach` over one chord. */
  method BassChunk(rhythm: seq<real>, pitch: int, t: real) returns (chunk: seq<MidiNote>, currentTime: real)
    ensures chunk == BassPass(rhythm, pitch, t, |rhythm|)
    ensures currentTime == t + AbsSum(rhythm, |rhythm|)
  {
    chunk, currentTime := [], t;
    var j := 0;
    while j < |rhythm|
      invariant 0 <= j <= |rhythm|
      invariant chunk == BassPass(rhythm, pitch, t, j)
      invariant currentTime == t + AbsSum(rhythm, j)
    {
      var duration := rhythm[j];
      if duration > 0.0 {
        chunk := chunk + [BassNote(pitch, currentTime, duration)];
      }
      currentTime := currentTime + Abs(duration);
      j := j + 1;
    }
  }

  /** The number of positive values among the first `j`. */
  function Positives(rhythm: seq<real>, j: nat): (n: nat)
    requires j <= |rhythm|
    ensures n <= j
  {
    if j == 0 then 0 else Positives(rhythm, j - 1) + (if rhythm[j - 1] > 0.0 then 1 else 0)
  }

  lemma {:induction false} PositivesMonotone(rhythm: seq<real>, i: nat, j: nat)
    requires i <= j <= |rhythm|
    ensures Positives(rhythm, i) <= Positives(rhythm, j)
    decreases j
  {
    if i < j {
      PositivesMonotone(rhythm, i, j - 1);
    }
  }

  /** Notes of one pitch, velocity 90 and channel 1, none of them a rest. */
  predicate BassVoice(ns: seq<MidiNote>, pitch: int) {
    forall k :: 0 <= k < |ns| ==>
      ns[k].pitch == pitch && ns[k].velocity == 90 && ns[k].channel == 1 && ns[k].duration > 0.0
  }

  /** One chord's pass: one note per positive rhythm value, all on the
      chord's bass pitch. */
  lemma {:induction false} BassPassContract(rhythm: seq<real>, pitch: int, t: real, j: nat)
    requires j <= |rhythm|
    ensures |BassPass(rhythm, pitch, t, j)| == Positives(rhythm, j)
    ensures BassVoice(BassPass(rhythm, pitch, t, j), pitch)
  {
    if j > 0 {
      var a := BassPass(rhythm, pitch, t, j - 1);
      var b := if rhythm[j - 1] > 0.0 then [BassNote(pitch, t + AbsSum(rhythm, j - 1), rhythm[j - 1])] else [];
      assert BassPass(rhythm, pitch, t, j) == a + b;
      BassPassContract(rhythm, pitch, t, j - 1);
    }
  }

  /** Each note is the root of chord `i / p`, an octave down, with
      velocity 90 on channel 1 and a positive duration. */
  predicate BassOfChords(ns: seq<MidiNote>, chords: seq<ProgressionChord>, p: nat)
    requires HasRoots(chords)
  {
    forall i :: 0 <= i < |ns| ==>
      p > 0 && i / p < |chords| && ns[i].pitch == chords[i / p].notes[0] - 12 &&
      ns[i].velocity == 90 && ns[i].channel == 1 && ns[i].duration > 0.0
  }

  /** createBassline plays each chord's root once per positive rhythm
      value. */
  lemma {:induction false} BassNotesCount(chords: seq<ProgressionChord>, rhythm: seq<real>, startTime: real, c: nat)
    requires HasRoots(chords) && c <= |chords|
    ensures |BassNotes(chords, rhythm, startTime, c)| == c * Positives(rhythm, |rhythm|)
  {
    if c > 0 {
      var a := BassNotes(chords, rhythm, startTime, c - 1);
      var b := BassPass(rhythm, chords[c - 1].notes[0] - 12, PassStart(rhythm, startTime, c - 1), |rhythm|);
      assert BassNotes(chords, rhythm, startTime, c) == a + b;
      BassNotesCount(chords, rhythm, startTime, c - 1);
      BassPassContract(rhythm, chords[c - 1].notes[0] - 12, PassStart(rhythm, startTime, c - 1), |rhythm|);
      var p := Positives(rhythm, |rhythm|);
      assert (c - 1) * p + p == c * p;
    }
  }

  /** Note `i` of createBassline belongs to chord `i / P`, where `P` is the
      number of positive rhythm values: it is that chord's first note an
      octave down, with velocity 90 on channel 1. */
  lemma {:induction false} BassNotesShape(chords: seq<ProgressionChord>, rhythm: seq<real>, startTime: real, c: nat)
    requires HasRoots(chords) && c <= |chords|
    ensures BassOfChords(BassNotes(chords, rhythm, startTime, c), chords, Positives(rhythm, |rhythm|))
  {
    if c > 0 {
      var p := Positives(rhythm, |rhythm|);
      var pitch := chords[c - 1].notes[0] - 12;
      var a := BassNotes(chords, rhythm, startTime, c - 1);
      var b := BassPass(rhythm, pitch, PassStart(rhythm, startTime, c - 1), |rhythm|);
      assert BassNotes(chords, rhythm, startTime, c) == a + b;
      BassNotesShape(chords, rhythm, startTime, c - 1);
      BassNotesCount(chords, rhythm, startTime, c - 1);
      BassPassContract(rhythm, pitch, PassStart(rhythm, startTime, c - 1), |rhythm|);
      BassOfChordsConcat(a, b, chords, p, c - 1);
    }
  }

  lemma BassOfChordsConcat(a: seq<MidiNote>, b: seq<MidiNote>, chords: seq<ProgressionChord>, p: nat, c: nat)
    requires HasRoots(chords) && c < |chords|
    requires BassOfChords(a, chords, p) && |a| == c * p
    requires BassVoice(b, chords[c].notes[0] - 12) && |b| == p
    ensures BassOfChords(a + b, chords, p)
  {
    var ns := a + b;
    forall i | 0 <= i < |ns|
      ensures p > 0 && i / p < |chords| && ns[i].pitch == chords[i / p].notes[0] - 12
      ensures ns[i].velocity == 90 && ns[i].channel == 1 && ns[i].duration > 0.0
    {
      if i < |a| {
        assert ns[i] == a[i];
      } else {
        assert ns[i] == b[i - |a|];
        RemainderUnique(i, p, c, i - |a|);
      }
    }
  }

  // ---------------------------------------------------------------------
  // SequenceOperations.changeRhythm

  /** The pitches of a note list, in order. */
  function NotePitches(ns: seq<MidiNote>): (ps: seq<int>)
    ensures |ps| == |ns| && forall i :: 0 <= i < |ns| ==> ps[i] == ns[i].pitch
  {
    seq(|ns|, i requires 0 <= i < |ns| => ns[i].pitch)
  }

  /** Whether every positive rhythm value finds a pitch: `pitches[k %
      pitches.length]` is undefined when there are no pitches. */
  predicate PitchesSuffice(pitches: seq<int>, rhythm: seq<real>, j: nat)
    requires j <= |rhythm|
  {
    |pitches| > 0 || Positives(rhythm, j) == 0
  }

  /** The notes for the first `j` rhythm values: the `k`-th positive value
      plays the `k`-th pitch (cyclically) from time 0 on; every value,
      rest or not, advances the time by its absolute value. */
  function VariationNotes(pitches: seq<int>, rhythm: seq<real>, j: nat): seq<MidiNote>
    requires j <= |rhythm| && PitchesSuffice(pitches, rhythm, j)
  {
    if j == 0 then []
    else VariationNotes(pitches, rhythm, j - 1) +
         (if rhythm[j - 1] > 0.0
          then [Plain(Cycle(pitches, Positives(rhythm, j - 1)), AbsSum(rhythm, j - 1), rhythm[j - 1])]
          else [])
  }

  /** The sequence changeRhythm returns: the original's metadata through
      the constructor, the name suffixed, and the re-timed pitches. */
  function RhythmVariation(d: SequenceData, rhythm: seq<real>, generatedId: string): SequenceData
    requires PitchesSuffice(NotePitches(d.notes), rhythm, |rhythm|)
  {
    NewSequence(SequenceOptions(Some(d.timeSignature), Some(d.tempo), Some(d.key), Some(d.name + " (Rhythm Variation)"), None), generatedId)
      .(notes := VariationNotes(NotePitches(d.notes), rhythm, |rhythm|))
  }

  /** changeRhythm. */
  method ChangeRhythm(sequence: MidiSequence, newRhythmPattern: seq<real>, generatedId: string) returns (r: MidiSequence)
    requires PitchesSuffice(NotePitches(sequence.notes), newRhythmPattern, |newRhythmPattern|)
    ensures fresh(r) && r.Data() == RhythmVariation(sequence.Data(), newRhythmPattern, generatedId)
  {
    r := new MidiSequence(SequenceOptions(Some(sequence.timeSignature), Some(sequence.tempo), Some(sequence.key),
                                          Some(sequence.name + " (Rhythm Variation)"), None), generatedId);
    var pitches := NotePitches(sequence.notes);
    assert PitchesSuffice(pitches, newRhythmPattern, |newRhythmPattern|);
    ghost var base := r.Data();
    var currentTime := 0.0;
    var pitchIndex := 0;
    var j := 0;
    while j < |newRhythmPattern|
      invariant 0 <= j <= |newRhythmPattern|
      invariant PitchesSuffice(pitches, newRhythmPattern, j)
      invariant r.Data() == base.(notes := VariationNotes(pitches, newRhythmPattern, j))
      invariant currentTime == AbsSum(newRhythmPattern, j) && pitchIndex == Positives(newRhythmPattern, j)
    {
      var duration := newRhythmPattern[j];
      if duration > 0.0 {
        PositivesMonotone(newRhythmPattern, j + 1, |newRhythmPattern|);
        CycleIsRemainder(pitches, pitchIndex);
        var pitch := pitches[pitchIndex % |pitches|];
        r.AddNote(Plain(pitch, currentTime, duration));
        pitchIndex := pitchIndex + 1;
      }
      currentTime := currentTime + Abs(duration);
      j := j + 1;
    }
  }

  /** changeRhythm plays one note per positive rhythm value. */
  lemma {:induction false} VariationCount(pitches: seq<int>, rhythm: seq<real>, j: nat)
    requires j <= |rhythm| && PitchesSuffice(pitches, rhythm, j)
    ensures |VariationNotes(pitches, rhythm, j)| == Positives(rhythm, j)
  {
    if j > 0 {
      VariationCount(pitches, rhythm, j - 1);
    }
  }

  /** The pitches keep their order: note `k` plays pitch `k` of the
      original, starting over when they run out. */
  lemma {:induction false} VariationPitches(pitches: seq<int>, rhythm: seq<real>, j: nat)
    requires j <= |rhythm| && |pitches| > 0
    ensures forall k :: 0 <= k < |VariationNotes(pitches, rhythm, j)| ==>
              VariationNotes(pitches, rhythm, j)[k].pitch == pitches[k % |pitches|]
  {
    if j > 0 {
      var a := VariationNotes(pitches, rhythm, j - 1);
      var b := if rhythm[j - 1] > 0.0
               then [Plain(Cycle(pitches, Positives(rhythm, j - 1)), AbsSum(rhythm, j - 1), rhythm[j - 1])]
               else [];
      assert VariationNotes(pitches, rhythm, j) == a + b;
      VariationPitches(pitches, rhythm, j - 1);
      VariationCount(pitches, rhythm, j - 1);
      CycleIsRemainder(pitches, Positives(rhythm, j - 1));
      var ns := a + b;
      forall k | 0 <= k < |ns|
        ensures ns[k].pitch == pitches[k % |pitches|]
      {
        if k < |a| {
          assert ns[k] == a[k];
        } else {
          assert ns[k] == b[0];
        }
      }
    }
  }

  /** Every note is a sounding note with velocity 80 on channel 0. */
  lemma {:induction false} VariationPlain(pitches: seq<int>, rhythm: seq<real>, j: nat)
    requires j <= |rhythm| && PitchesSuffice(pitches, rhythm, j)
    ensures PlainNotes(VariationNotes(pitches, rhythm, j))
  {
    if j > 0 {
      var a := VariationNotes(pitches, rhythm, j - 1);
      var b := if rhythm[j - 1] > 0.0
               then [Plain(Cycle(pitches, Positives(rhythm, j - 1)), AbsSum(rhythm, j - 1), rhythm[j - 1])]
               else [];
      assert VariationNotes(pitches, rhythm, j) == a + b;
      VariationPlain(pitches, rhythm, j - 1);
      PlainConcat(a, b);
    }
  }

  /** The notes start in order, between 0 and the total length of the
      rhythm. */
  lemma {:induction false} VariationTimes(pitches: seq<int>, rhythm: seq<real>, j: nat)
    requires j <= |rhythm| && PitchesSuffice(pitches, rhythm, j)
    ensures StartsSorted(VariationNotes(pitches, rhythm, j))
    ensures StartsWithin(VariationNotes(pitches, rhythm, j), 0.0, AbsSum(rhythm, j))
  {
    if j > 0 {
      var a := VariationNotes(pitches, rhythm, j - 1);
      var b := if rhythm[j - 1] > 0.0
               then [Plain(Cycle(pitches, Positives(rhythm, j - 1)), AbsSum(rhythm, j - 1), rhythm[j - 1])]
               else [];
      assert VariationNotes(pitches, rhythm, j) == a + b;
      VariationTimes(pitches, rhythm, j - 1);
      SortedConcat(a, b, 0.0, AbsSum(rhythm, j - 1), AbsSum(rhythm, j));
      WithinConcat(a, b, 0.0, AbsSum(rhythm, j - 1), AbsSum(rhythm, j));
    }
  }

  // ---------------------------------------------------------------------
  // SequenceOperations.mergeSequences

  /** The data of each sequence object, in order. */
  function DataOf(ss: seq<MidiSequence>): (ds: seq<SequenceData>)
    reads ss
    ensures |ds| == |ss| && forall i :: 0 <= i < |ss| ==> ds[i] == ss[i].Data()
  {
    seq(|ss|, i requires 0 <= i < |ss| reads ss => ss[i].Data())
  }

  /** The notes of the first `i` sequences, one after another. */
  function ConcatNotes(ds: seq<SequenceData>, i: nat): seq<MidiNote>
    requires i <= |ds|
  {
    if i == 0 then [] else ConcatNotes(ds, i - 1) + ds[i - 1].notes
  }

  /** The sequence mergeSequences returns: no sequences give a new default
      sequence; otherwise a clone of the first one carrying every
      sequence's notes in order. */
  function MergedData(ds: seq<SequenceData>, generatedId: string): SequenceData {
    if |ds| == 0 then NewSequence(SequenceOptions(None, None, None, None, None), generatedId)
    else CloneData(ds[0], generatedId).(notes := ConcatNotes(ds, |ds|))
  }

  /** mergeSequences; the clone's fresh id and the new sequence's both stand
      for `generatedId`. */
  method MergeSequences(sequences: seq<MidiSequence>, generatedId: string) returns (merged: MidiSequence)
    ensures fresh(merged) && merged.Data() == MergedData(old(DataOf(sequences)), generatedId)
  {
    if |sequences| == 0 {
      merged := new MidiSequence(SequenceOptions(None, None, None, None, None), generatedId);
      return;
    }
    ghost var ds := DataOf(sequences);
    merged := sequences[0].Clone(generatedId);
    merged.Clear();
    var i := 0;
    while i < |sequences|
      invariant 0 <= i <= |sequences| && fresh(merged)
      invariant DataOf(sequences) == ds
      invariant merged.Data() == CloneData(ds[0], generatedId).(notes := ConcatNotes(ds, i))
    {
      merged.AddNotes(sequences[i].notes);
      i := i + 1;
    }
  }

  /** Later sequences only append. */
  lemma {:induction false} ConcatNotesPrefix(ds: seq<SequenceData>, i: nat, j: nat)
    requires i <= j <= |ds|
    ensures ConcatNotes(ds, i) <= ConcatNotes(ds, j)
  {
    if i < j {
      ConcatNotesPrefix(ds, i, j - 1);
    }
  }

  /** The number of notes of the first `i` sequences. */
  function NoteCount(ds: seq<SequenceData>, i: nat): nat
    requires i <= |ds|
  {
    if i == 0 then 0 else NoteCount(ds, i - 1) + |ds[i - 1].notes|
  }

  lemma {:induction false} ConcatNotesCount(ds: seq<SequenceData>, i: nat)
    requires i <= |ds|
    ensures |ConcatNotes(ds, i)| == NoteCount(ds, i)
  {
    if i > 0 {
      ConcatNotesCount(ds, i - 1);
    }
  }

  /** Every sequence's notes appear unchanged and in order in the merged
      sequence, right after those of the sequences before it, and nothing
      else is added. */
  lemma MergedSlices(ds: seq<SequenceData>, generatedId: string, i: nat)
    requires i < |ds|
    ensures |MergedData(ds, generatedId).notes| == NoteCount(ds, |ds|)
    ensures NoteCount(ds, i) + |ds[i].notes| <= NoteCount(ds, |ds|)
    ensures MergedData(ds, generatedId).notes[NoteCount(ds, i)..NoteCount(ds, i) + |ds[i].notes|] == ds[i].notes
  {
    ConcatNotesPrefix(ds, i + 1, |ds|);
    ConcatNotesCount(ds, i);
    ConcatNotesCount(ds, |ds|);
    ConcatNotesCount(ds, i + 1);
    var a := ConcatNotes(ds, i);
    assert ConcatNotes(ds, i + 1) == a + ds[i].notes;
    assert ConcatNotes(ds, |ds|)[..|a| + |ds[i].notes|] == a + ds[i].notes;
  }

  /** Two sequences merge into the first one's metadata with the notes of
      the first followed by those of the second. */
  lemma MergeTwo(d1: SequenceData, d2: SequenceData, generatedId: string)
    ensures MergedData([d1, d2], generatedId) == CloneData(d1, generatedId).(notes := d1.notes + d2.notes)
  {
    var ds := [d1, d2];
    assert ConcatNotes(ds, 1) == [] + d1.notes;
    assert ConcatNotes(ds, 2) == ConcatNotes(ds, 1) + d2.notes;
  }
}
