// `BasslineGenerator` of src/core/patternGenerator.js: bass lines under a
// list of chord roots, either from a table of offsets repeated through each
// chord or as a random walk. `Math.random` becomes two parameters giving the
// draw for each note.
module CoreBasslineGenerator {
  import opened JsSupport

  /** A bass pitch: a MIDI number, or NaN where the code reads an
      undefined table entry. */
  datatype Pitch = Midi(n: int) | NaN

  datatype BassNote = BassNote(pitch: Pitch, startTime: real, duration: real, velocity: int)

  /** The `pattern` argument: a table name, an array of offsets, or null. */
  datatype PatternArg = Named(name: string) | Offsets(offsets: seq<int>) | NullPattern

  datatype BassError = InvalidPattern(pattern: PatternArg)

  const DEFAULT_OFFSETS: seq<int> := [0, 3, 7, 10]
  const DEFAULT_NOTES_PER_CHORD: int := 4
  const DEFAULT_NOTE_DURATION: real := 0.25

  /** The keys of the `patterns` table. */
  const PATTERN_NAMES: seq<string> := ["simple", "walking", "octave", "pentatonic"]

  /** `this.patterns[name]`. */
  function NamedPattern(name: string): Option<seq<int>> {
    if name == "simple" then Some([0, 0, 0, 0])
    else if name == "walking" then Some([0, 4, 7, 9])
    else if name == "octave" then Some([0, 12, 0, 12])
    else if name == "pentatonic" then Some([0, 2, 4, 7])
    else None
  }

  /** Exactly the four table names find a pattern; each has four offsets
      and starts on the root. */
  lemma NamedPatternNames(name: string)
    ensures NamedPattern(name).Some? <==> name in PATTERN_NAMES
    ensures NamedPattern(name).Some? ==> |NamedPattern(name).value| == 4 && NamedPattern(name).value[0] == 0
  {
  }

  /** `patternToUse`: a string is looked up, an array is used as it is,
      and a missing table entry or null throws. */
  function PatternToUse(pattern: PatternArg): Result<seq<int>, BassError> {
    match pattern
    case Named(name) =>
      (match NamedPattern(name) case Some(o) => Ok(o) case None => Err(InvalidPattern(pattern)))
    case Offsets(o) => Ok(o)
    case NullPattern => Err(InvalidPattern(pattern))
  }

  /** `chordIndex * notesPerChord * noteDuration + i * noteDuration`. */
  function StartOf(chordIndex: int, notesPerChord: int, i: int, noteDuration: real): real {
    (chordIndex * notesPerChord) as real * noteDuration + i as real * noteDuration
  }

  /** Notes start on a grid of `noteDuration`: note `i` of chord `c` at
      step `c * notesPerChord + i`. */
  lemma StartOnGrid(chordIndex: int, notesPerChord: int, i: int, noteDuration: real)
    ensures StartOf(chordIndex, notesPerChord, i, noteDuration) ==
            (chordIndex * notesPerChord + i) as real * noteDuration
  {
  }

  /** The velocity accent: the first note of a chord is louder. */
  function Accent(i: int): int {
    if i == 0 then 100 else 80
  }

  // ---------------------------------------------------------------------
  // generatePattern

  /** `root - 12 + patternToUse[i % length]`; an empty array gives NaN. */
  function PatternPitch(root: int, offsets: seq<int>, i: nat): Pitch {
    if |offsets| == 0 then NaN else Midi(root - 12 + offsets[i % |offsets|])
  }

  /** The first `i` notes of chord `chordIndex`. */
  function ChordPattern(root: int, chordIndex: nat, offsets: seq<int>, notesPerChord: int,
                        noteDuration: real, i: nat): (r: seq<BassNote>)
    ensures |r| == i
  {
    if i == 0 then []
    else ChordPattern(root, chordIndex, offsets, notesPerChord, noteDuration, i - 1) +
         [BassNote(PatternPitch(root, offsets, i - 1), StartOf(chordIndex, notesPerChord, i - 1, noteDuration),
                   noteDuration, Accent(i - 1))]
  }

  /** The notes of the first `j` chords. */
  function PatternLine(roots: seq<int>, offsets: seq<int>, notesPerChord: int, noteDuration: real, j: nat)
    : seq<BassNote>
    requires j <= |roots|
  {
    if j == 0 then []
    else PatternLine(roots, offsets, notesPerChord, noteDuration, j - 1) +
         ChordPattern(roots[j - 1], j - 1, offsets, notesPerChord, noteDuration, Rounds(notesPerChord))
  }

  /** `generatePattern`: no roots gives no notes (before the pattern is
      checked); otherwise each root in turn gets `notesPerChord` notes
      cycling through the offsets. */
  method GeneratePattern(chordRoots: Option<seq<int>>, pattern: Option<PatternArg>,
                         notesPerChord: Option<int>, noteDuration: Option<real>)
    returns (r: Result<seq<BassNote>, BassError>)
    ensures chordRoots.None? || chordRoots == Some([]) ==> r == Ok([])
    ensures chordRoots.Some? && chordRoots != Some([]) ==>
              match PatternToUse(pattern.GetOr(Offsets(DEFAULT_OFFSETS)))
              case Err(e) => r == Err(e)
              case Ok(offsets) =>
                r == Ok(PatternLine(chordRoots.value, offsets, notesPerChord.GetOr(DEFAULT_NOTES_PER_CHORD),
                                    noteDuration.GetOr(DEFAULT_NOTE_DURATION), |chordRoots.value|))
  {
    if chordRoots.None? || |chordRoots.value| == 0 {
      return Ok([]);
    }
    var roots := chordRoots.value;
    var patternToUse := PatternToUse(pattern.GetOr(Offsets(DEFAULT_OFFSETS)));
    if patternToUse.Err? {
      return Err(patternToUse.error);
    }
    var offsets := patternToUse.value;
    var n := notesPerChord.GetOr(DEFAULT_NOTES_PER_CHORD);
    var d := noteDuration.GetOr(DEFAULT_NOTE_DURATION);
    var bassline: seq<BassNote> := [];
    var chordIndex := 0;
    while chordIndex < |roots|
      invariant 0 <= chordIndex <= |roots|
      invariant bassline == PatternLine(roots, offsets, n, d, chordIndex)
    {
      var notes := PatternChordNotes(roots[chordIndex], chordIndex, offsets, n, d);
      bassline := bassline + notes;
      chordIndex := chordIndex + 1;
    }
    return Ok(bassline);
  }

  /** The `for` loop over one chord's notes. */
  method PatternChordNotes(root: int, chordIndex: nat, offsets: seq<int>, n: int, d: real)
    returns (notes: seq<BassNote>)
    ensures notes == ChordPattern(root, chordIndex, offsets, n, d, Rounds(n))
  {
    notes := [];
    var i := 0;
    while i < n
      invariant 0 <= i <= Rounds(n)
      invariant notes == ChordPattern(root, chordIndex, offsets, n, d, i)
    {
      var pitch := if |offsets| == 0 then NaN else Midi(root - 12 + offsets[i % |offsets|]);
      assert pitch == PatternPitch(root, offsets, i);
      assert (chordIndex * n) as real * d + i as real * d == StartOf(chordIndex, n, i, d);
      assert (if i == 0 then 100 else 80) == Accent(i);
      notes := notes + [BassNote(pitch, (chordIndex * n) as real * d + i as real * d, d, if i == 0 then 100 else 80)];
      assert notes == ChordPattern(root, chordIndex, offsets, n, d, i + 1);
      i := i + 1;
    }
  }

  /** The note at position `i` of a chord. */
  lemma {:induction false} ChordPatternAt(root: int, chordIndex: nat, offsets: seq<int>, notesPerChord: int,
                                          noteDuration: real, count: nat, i: nat)
    requires i < count
    ensures ChordPattern(root, chordIndex, offsets, notesPerChord, noteDuration, count)[i] ==
            BassNote(PatternPitch(root, offsets, i), StartOf(chordIndex, notesPerChord, i, noteDuration),
                     noteDuration, Accent(i))
  {
    if i < count - 1 {
      ChordPatternAt(root, chordIndex, offsets, notesPerChord, noteDuration, count - 1, i);
    }
  }

  /** One block of `notesPerChord` notes per root. */
  lemma {:induction false} PatternLineLength(roots: seq<int>, offsets: seq<int>, notesPerChord: int,
                                             noteDuration: real, j: nat)
    requires j <= |roots|
    ensures |PatternLine(roots, offsets, notesPerChord, noteDuration, j)| == j * Rounds(notesPerChord)
  {
    if j > 0 {
      PatternLineLength(roots, offsets, notesPerChord, noteDuration, j - 1);
      assert (j - 1) * Rounds(notesPerChord) + Rounds(notesPerChord) == j * Rounds(notesPerChord);
    }
  }

  /** Note `i` of chord `c` sits at position `c * notesPerChord + i`: one
      octave below the root plus the offset at `i` modulo the pattern's
      length, on step `c * notesPerChord + i` of the grid, accented on the
      first note of the chord. */
  lemma {:induction false} PatternLineAt(roots: seq<int>, offsets: seq<int>, notesPerChord: int,
                                         noteDuration: real, j: nat, c: nat, i: nat)
    requires c < j <= |roots| && i < Rounds(notesPerChord)
    ensures c * Rounds(notesPerChord) + i < |PatternLine(roots, offsets, notesPerChord, noteDuration, j)|
    ensures PatternLine(roots, offsets, notesPerChord, noteDuration, j)[c * Rounds(notesPerChord) + i] ==
            BassNote(PatternPitch(roots[c], offsets, i), (c * notesPerChord + i) as real * noteDuration,
                     noteDuration, Accent(i))
  {
    var n := Rounds(notesPerChord);
    PatternLineLength(roots, offsets, notesPerChord, noteDuration, j - 1);
    var prev := PatternLine(roots, offsets, notesPerChord, noteDuration, j - 1);
    var chunk := ChordPattern(roots[j - 1], j - 1, offsets, notesPerChord, noteDuration, n);
    assert PatternLine(roots, offsets, notesPerChord, noteDuration, j) == prev + chunk;
    assert (j - 1) * n + n == j * n;
    if c < j - 1 {
      PatternLineAt(roots, offsets, notesPerChord, noteDuration, j - 1, c, i);
      MulStep(c, j - 1, n);
    } else {
      ChordPatternAt(roots[j - 1], j - 1, offsets, notesPerChord, noteDuration, n, i);
    }
    assert n == notesPerChord;
    StartOnGrid(c, notesPerChord, i, noteDuration);
  }

  // ---------------------------------------------------------------------
  // generateWalking

  const WALKING_INTERVALS: seq<int> := [0, 2, 4, 5, 7, 9, 10, 12]

  /** `Math.abs(note - base) <= 12`. */
  predicate InOctave(note: int, base: int) {
    -12 <= note - base <= 12
  }

  /** The note `interval` above or below `previous`. */
  function Move(previous: int, interval: int, upward: bool): int {
    if upward then previous + interval else previous - interval
  }

  /** `walkingIntervals.filter(...)`: the intervals whose move from the
      previous note, in the given direction, stays within an octave of the
      chord's bass root. */
  function Candidates(intervals: seq<int>, previous: int, base: int, upward: bool): (r: seq<int>)
    ensures |r| <= |intervals|
  {
    if |intervals| == 0 then []
    else (if InOctave(Move(previous, intervals[0], upward), base) then [intervals[0]] else []) +
         Candidates(intervals[1..], previous, base, upward)
  }

  /** The filter keeps exactly the intervals whose move stays in the
      octave. */
  lemma {:induction false} CandidatesMembers(intervals: seq<int>, previous: int, base: int, upward: bool)
    ensures forall x :: x in Candidates(intervals, previous, base, upward) <==>
              x in intervals && InOctave(Move(previous, x, upward), base)
  {
    if |intervals| > 0 {
      CandidatesMembers(intervals[1..], previous, base, upward);
      assert intervals == [intervals[0]] + intervals[1..];
    }
  }

  /** When every move stays in the octave the filter keeps them all. */
  lemma {:induction false} CandidatesAll(intervals: seq<int>, previous: int, base: int, upward: bool)
    requires forall k :: 0 <= k < |intervals| ==> InOctave(Move(previous, intervals[k], upward), base)
    ensures Candidates(intervals, previous, base, upward) == intervals
  {
    if |intervals| > 0 {
      CandidatesAll(intervals[1..], previous, base, upward);
      assert intervals == [intervals[0]] + intervals[1..];
    }
  }

  /** `Math.floor(random * length)`. */
  function PickIndex(random: real, length: nat): (k: int)
    requires 0.0 <= random < 1.0
    ensures length > 0 ==> 0 <= k < length
  {
    PickBounds(random, length);
    (random * length as real).Floor
  }

  lemma PickBounds(random: real, length: nat)
    requires 0.0 <= random < 1.0
    ensures 0.0 <= random * length as real
    ensures length > 0 ==> random * length as real < length as real
  {
    if length > 0 {
      assert random * length as real < 1.0 * length as real;
    }
  }

  /** `Math.random` stands for values in [0, 1). */
  ghost predicate IsRandom(draw: (int, int) -> real) {
    forall c, i :: 0.0 <= draw(c, i) < 1.0
  }

  /** One step of the walk: a random candidate, added or subtracted on a
      second draw. The filter always tests the upward move. No candidate
      (or a NaN previous note, which no candidate fits) reads an undefined
      interval and gives NaN. */
  function WalkStep(previous: Pitch, base: int, pick: real, up: real): Pitch
    requires 0.0 <= pick < 1.0
  {
    match previous
    case NaN => NaN
    case Midi(p) =>
      var candidates := Candidates(WALKING_INTERVALS, p, base, true);
      if |candidates| == 0 then NaN
      else Midi(Move(p, candidates[PickIndex(pick, |candidates|)], up > 0.5))
  }

  /** The pitch of note `i` of chord `c`: the root an octave down, then
      one step of the walk per note. */
  function WalkPitch(root: int, c: nat, i: nat, pick: (int, int) -> real, up: (int, int) -> real): Pitch
    requires IsRandom(pick)
  {
    if i == 0 then Midi(root - 12)
    else WalkStep(WalkPitch(root, c, i - 1, pick, up), root - 12, pick(c, i), up(c, i))
  }

  /** The first `i` notes of chord `chordIndex`. */
  function ChordWalk(root: int, chordIndex: nat, notesPerChord: int, noteDuration: real,
                     pick: (int, int) -> real, up: (int, int) -> real, i: nat): (r: seq<BassNote>)
    requires IsRandom(pick)
    ensures |r| == i
  {
    if i == 0 then []
    else ChordWalk(root, chordIndex, notesPerChord, noteDuration, pick, up, i - 1) +
         [BassNote(WalkPitch(root, chordIndex, i - 1, pick, up),
                   StartOf(chordIndex, notesPerChord, i - 1, noteDuration), noteDuration, Accent(i - 1))]
  }

  /** The notes of the first `j` chords. */
  function WalkLine(roots: seq<int>, notesPerChord: int, noteDuration: real,
                    pick: (int, int) -> real, up: (int, int) -> real, j: nat): seq<BassNote>
    requires j <= |roots| && IsRandom(pick)
  {
    if j == 0 then []
    else WalkLine(roots, notesPerChord, noteDuration, pick, up, j - 1) +
         ChordWalk(roots[j - 1], j - 1, notesPerChord, noteDuration, pick, up, Rounds(notesPerChord))
  }

  /** `generateWalking`, where `pick(c, i)` and `up(c, i)` are the two
      values `Math.random` returns for note `i` of chord `c`. */
  method GenerateWalking(chordRoots: Option<seq<int>>, notesPerChord: Option<int>, noteDuration: Option<real>,
                         pick: (int, int) -> real, up: (int, int) -> real)
    returns (bassline: seq<BassNote>)
    requires IsRandom(pick)
    ensures chordRoots.None? || chordRoots == Some([]) ==> bassline == []
    ensures chordRoots.Some? && chordRoots != Some([]) ==>
              bassline == WalkLine(chordRoots.value, notesPerChord.GetOr(DEFAULT_NOTES_PER_CHORD),
                                   noteDuration.GetOr(DEFAULT_NOTE_DURATION), pick, up, |chordRoots.value|)
  {
    bassline := [];
    if chordRoots.None? || |chordRoots.value| == 0 {
      return;
    }
    var roots := chordRoots.value;
    var n := notesPerChord.GetOr(DEFAULT_NOTES_PER_CHORD);
    var d := noteDuration.GetOr(DEFAULT_NOTE_DURATION);
    var chordIndex := 0;
    while chordIndex < |roots|
      invariant 0 <= chordIndex <= |roots|
      invariant bassline == WalkLine(roots, n, d, pick, up, chordIndex)
    {
      var notes := WalkChordNotes(roots[chordIndex], chordIndex, n, d, pick, up);
      bassline := bassline + notes;
      chordIndex := chordIndex + 1;
    }
  }

  /** The `for` loop over one chord's notes, carrying `previousNote`. */
  method WalkChordNotes(root: int, chordIndex: nat, n: int, d: real,
                        pick: (int, int) -> real, up: (int, int) -> real)
    returns (notes: seq<BassNote>)
    requires IsRandom(pick)
    ensures notes == ChordWalk(root, chordIndex, n, d, pick, up, Rounds(n))
  {
    notes := [];
    var previousNote := Midi(root - 12);
    var i := 0;
    while i < n
      invariant 0 <= i <= Rounds(n)
      invariant notes == ChordWalk(root, chordIndex, n, d, pick, up, i)
      invariant previousNote == WalkPitch(root, chordIndex, if i == 0 then 0 else i - 1, pick, up)
    {
      assert (chordIndex * n) as real * d + i as real * d == StartOf(chordIndex, n, i, d);
      if i == 0 {
        assert previousNote == WalkPitch(root, chordIndex, i, pick, up);
        notes := notes + [BassNote(previousNote, (chordIndex * n) as real * d + i as real * d, d, 100)];
      } else {
        var nextNote := WalkStep(previousNote, root - 12, pick(chordIndex, i), up(chordIndex, i));
        assert nextNote == WalkPitch(root, chordIndex, i, pick, up);
        notes := notes + [BassNote(nextNote, (chordIndex * n) as real * d + i as real * d, d, 80)];
        previousNote := nextNote;
      }
      assert notes == ChordWalk(root, chordIndex, n, d, pick, up, i + 1);
      i := i + 1;
    }
  }

  /** The note at position `i` of a chord's walk. */
  lemma {:induction false} ChordWalkAt(root: int, chordIndex: nat, notesPerChord: int, noteDuration: real,
                                       pick: (int, int) -> real, up: (int, int) -> real, count: nat, i: nat)
    requires IsRandom(pick) && i < count
    ensures ChordWalk(root, chordIndex, notesPerChord, noteDuration, pick, up, count)[i] ==
            BassNote(WalkPitch(root, chordIndex, i, pick, up), StartOf(chordIndex, notesPerChord, i, noteDuration),
                     noteDuration, Accent(i))
  {
    if i < count - 1 {
      ChordWalkAt(root, chordIndex, notesPerChord, noteDuration, pick, up, count - 1, i);
    }
  }

  /** The walk has as many notes as the pattern line. */
  lemma {:induction false} WalkLineLength(roots: seq<int>, notesPerChord: int, noteDuration: real,
                                          pick: (int, int) -> real, up: (int, int) -> real, j: nat)
    requires j <= |roots| && IsRandom(pick)
    ensures |WalkLine(roots, notesPerChord, noteDuration, pick, up, j)| == j * Rounds(notesPerChord)
  {
    if j > 0 {
      WalkLineLength(roots, notesPerChord, noteDuration, pick, up, j - 1);
      assert (j - 1) * Rounds(notesPerChord) + Rounds(notesPerChord) == j * Rounds(notesPerChord);
    }
  }

  /** Note `i` of chord `c` of the walk sits at `c * notesPerChord + i`,
      on the same grid as the pattern line; the first note of each chord
      is its root an octave down with velocity 100, the others have 80. */
  lemma {:induction false} WalkLineAt(roots: seq<int>, notesPerChord: int, noteDuration: real,
                                      pick: (int, int) -> real, up: (int, int) -> real, j: nat, c: nat, i: nat)
    requires c < j <= |roots| && i < Rounds(notesPerChord) && IsRandom(pick)
    ensures c * Rounds(notesPerChord) + i < |WalkLine(roots, notesPerChord, noteDuration, pick, up, j)|
    ensures WalkLine(roots, notesPerChord, noteDuration, pick, up, j)[c * Rounds(notesPerChord) + i] ==
            BassNote(WalkPitch(roots[c], c, i, pick, up), (c * notesPerChord + i) as real * noteDuration,
                     noteDuration, Accent(i))
    ensures i == 0 ==> WalkPitch(roots[c], c, i, pick, up) == Midi(roots[c] - 12)
  {
    var n := Rounds(notesPerChord);
    WalkLineLength(roots, notesPerChord, noteDuration, pick, up, j - 1);
    var prev := WalkLine(roots, notesPerChord, noteDuration, pick, up, j - 1);
    var chunk := ChordWalk(roots[j - 1], j - 1, notesPerChord, noteDuration, pick, up, n);
    assert WalkLine(roots, notesPerChord, noteDuration, pick, up, j) == prev + chunk;
    assert (j - 1) * n + n == j * n;
    if c < j - 1 {
      WalkLineAt(roots, notesPerChord, noteDuration, pick, up, j - 1, c, i);
      MulStep(c, j - 1, n);
    } else {
      ChordWalkAt(roots[j - 1], j - 1, notesPerChord, noteDuration, pick, up, n, i);
    }
    assert n == notesPerChord;
    StartOnGrid(c, notesPerChord, i, noteDuration);
  }

  /** Each step moves by one of the walking intervals, up or down; once a
      note is NaN every later note of the chord is NaN. */
  lemma WalkStepMoves(previous: Pitch, base: int, pick: real, up: real)
    requires 0.0 <= pick < 1.0
    ensures previous.NaN? ==> WalkStep(previous, base, pick, up).NaN?
    ensures WalkStep(previous, base, pick, up).Midi? ==>
              previous.Midi? &&
              var step := WalkStep(previous, base, pick, up).n - previous.n;
              (step in WALKING_INTERVALS || -step in WALKING_INTERVALS)
  {
    if previous.Midi? {
      var candidates := Candidates(WALKING_INTERVALS, previous.n, base, true);
      CandidatesMembers(WALKING_INTERVALS, previous.n, base, true);
      if |candidates| > 0 {
        assert candidates[PickIndex(pick, |candidates|)] in candidates;
      }
    }
  }

  /** The filter bounds only the upward move, so a walk that keeps
      stepping down leaves the octave: from C3 three downward octave steps
      reach C0 at the fourth note, and the fourth step finds no candidate,
      so the fifth note (when notesPerChord >= 5) is NaN. */
  lemma WalkLeavesOctave()
    ensures WalkPitch(60, 0, 3, (c, i) => 0.99, (c, i) => 0.0) == Midi(12)
    ensures WalkPitch(60, 0, 4, (c, i) => 0.99, (c, i) => 0.0) == NaN
  {
    var pick: (int, int) -> real := (c, i) => 0.99;
    var up: (int, int) -> real := (c, i) => 0.0;
    DownFromTop(48);
    DownFromTop(36);
    assert WalkPitch(60, 0, 2, pick, up) == Midi(24);
    assert Candidates(WALKING_INTERVALS, 24, 48, true) == [12];
    assert PickIndex(0.99, 1) == 0;
    assert WalkPitch(60, 0, 3, pick, up) == Midi(12);
    assert Candidates(WALKING_INTERVALS, 12, 48, true) == [];
  }

  /** Within the lower half of the octave every interval passes the
      filter, and the last draw below 1 picks the octave. */
  lemma DownFromTop(p: int)
    requires 36 <= p <= 48
    ensures WalkStep(Midi(p), 48, 0.99, 0.0) == Midi(p - 12)
  {
    CandidatesAll(WALKING_INTERVALS, p, 48, true);
    assert PickIndex(0.99, 8) == 7;
  }

  // ---------------------------------------------------------------------
  // The walk as its comment describes it

  /** The step with the filter applied in the drawn direction, so that the
      next note stays within an octave of the bass root. */
  function WalkStepWithin(previous: int, base: int, pick: real, up: real): (next: int)
    requires 0.0 <= pick < 1.0
    requires InOctave(previous, base)
    ensures InOctave(next, base)
    ensures next - previous in WALKING_INTERVALS || previous - next in WALKING_INTERVALS
  {
    var candidates := Candidates(WALKING_INTERVALS, previous, base, up > 0.5);
    CandidatesMembers(WALKING_INTERVALS, previous, base, up > 0.5);
    assert WALKING_INTERVALS[0] == 0 && Move(previous, 0, up > 0.5) == previous;
    assert 0 in candidates;
    var interval := candidates[PickIndex(pick, |candidates|)];
    assert interval in candidates;
    Move(previous, interval, up > 0.5)
  }

  /** The pitch of note `i` under the corrected step: never NaN, and
      always within an octave of the bass root. */
  function WalkPitchWithin(root: int, c: nat, i: nat, pick: (int, int) -> real, up: (int, int) -> real): (p: int)
    requires IsRandom(pick)
    ensures InOctave(p, root - 12)
  {
    if i == 0 then root - 12
    else WalkStepWithin(WalkPitchWithin(root, c, i - 1, pick, up), root - 12, pick(c, i), up(c, i))
  }
}
