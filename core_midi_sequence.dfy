// The multi-track sequence of src/core/midiSequence.js: tracks of timed
// notes, a running total duration, note removal with recomputation of that
// duration, grid quantization, transposition and same-pitch collision
// detection. The JavaScript class becomes the class `MidiSequence`; its
// tracks array, whose note arrays the methods change in place, becomes a
// field of type `seq<Track>` that the methods reassign. Beat times are
// exact reals.
module CoreMidiSequence {
  import opened JsSupport

  const DefaultTempo := 120.0
  const DefaultTicksPerBeat := 480

  /** A note; times in beats. */
  datatype Note = Note(pitch: int, startTime: real, duration: real, velocity: int)

  datatype Track = Track(name: string, instrument: int, notes: seq<Note>)

  datatype TimeSignature = TimeSignature(numerator: int, denominator: int)

  /** The constructor's options; `None` is an absent key (or, for the
      numbers, a falsy 0). */
  datatype Options = Options(tempo: Option<real>, timeSignature: Option<TimeSignature>,
                             ticksPerBeat: Option<int>)

  /** The argument of `addTrack`; `None` is an absent key. */
  datatype TrackData = TrackData(name: Option<string>, instrument: Option<int>,
                                 notes: Option<seq<Note>>)

  /** The argument of `addNote`; `None` is an absent key. */
  datatype NoteData = NoteData(pitch: Option<int>, startTime: Option<real>,
                               duration: Option<real>, velocity: Option<int>)

  /** A pair of colliding notes of one track, by index. */
  datatype Collision = Collision(noteIndex1: int, noteIndex2: int)

  datatype SequenceError = TrackOutOfBounds(trackIndex: int)

  function End(n: Note): real {
    n.startTime + n.duration
  }

  // ---------------------------------------------------------------------
  // Building tracks and notes

  /** The track `addTrack` appends when `count` tracks exist: the defaults
      `Track <count+1>`, instrument 0 and no notes, each overridden by the
      key the caller supplied. */
  function NewTrack(data: TrackData, count: nat): (t: Track)
    ensures data.name.None? ==> t.name == "Track " + NatToString(count + 1)
    ensures data.name.Some? ==> t.name == data.name.value
    ensures t.instrument == (if data.instrument.Some? then data.instrument.value else 0)
    ensures t.notes == (if data.notes.Some? then data.notes.value else [])
  {
    Track(data.name.GetOr("Track " + NatToString(count + 1)),
          data.instrument.GetOr(0),
          data.notes.GetOr([]))
  }

  /** The note `addNote` builds: pitch 60, start 0, duration 1 and velocity
      100 unless the caller supplied the key. */
  function NewNote(data: NoteData): (n: Note)
    ensures n.pitch == (if data.pitch.Some? then data.pitch.value else 60)
    ensures n.startTime == (if data.startTime.Some? then data.startTime.value else 0.0)
    ensures n.duration == (if data.duration.Some? then data.duration.value else 1.0)
    ensures n.velocity == (if data.velocity.Some? then data.velocity.value else 100)
  {
    Note(data.pitch.GetOr(60), data.startTime.GetOr(0.0), data.duration.GetOr(1.0),
         data.velocity.GetOr(100))
  }

  // ---------------------------------------------------------------------
  // The total duration: the latest note end over all tracks, at least 0

  /** The running maximum `_recalculateDuration` keeps, starting from `acc`,
      over `notes` in order. */
  function FoldEnds(acc: real, notes: seq<Note>): real
    decreases |notes|
  {
    if |notes| == 0 then acc
    else
      var a := FoldEnds(acc, notes[..|notes| - 1]);
      var e := End(notes[|notes| - 1]);
      if e > a then e else a
  }

  /** The same running maximum over the notes of every track in order. */
  function FoldTracks(acc: real, tracks: seq<Track>): real
    decreases |tracks|
  {
    if |tracks| == 0 then acc
    else FoldEnds(FoldTracks(acc, tracks[..|tracks| - 1]), tracks[|tracks| - 1].notes)
  }

  /** What `_recalculateDuration` leaves in `totalDuration`. */
  function MaxEnd(tracks: seq<Track>): real {
    FoldTracks(0.0, tracks)
  }

  /** `m` is the largest of 0 and every note end of `tracks`. */
  predicate IsMaxEnd(tracks: seq<Track>, m: real) {
    && m >= 0.0
    && (forall t, k :: 0 <= t < |tracks| && 0 <= k < |tracks[t].notes| ==>
          End(tracks[t].notes[k]) <= m)
    && (m == 0.0 ||
        exists t, k :: (0 <= t < |tracks| && 0 <= k < |tracks[t].notes| &&
                        End(tracks[t].notes[k]) == m))
  }

  lemma {:induction false} FoldEndsIsMax(acc: real, notes: seq<Note>)
    ensures FoldEnds(acc, notes) >= acc
    ensures forall k :: 0 <= k < |notes| ==> End(notes[k]) <= FoldEnds(acc, notes)
    ensures FoldEnds(acc, notes) == acc ||
            exists k :: 0 <= k < |notes| && End(notes[k]) == FoldEnds(acc, notes)
    decreases |notes|
  {
    if |notes| > 0 {
      var init := notes[..|notes| - 1];
      FoldEndsIsMax(acc, init);
      var a := FoldEnds(acc, init);
      if a != acc {
        var k :| 0 <= k < |init| && End(init[k]) == a;
        assert notes[k] == init[k];
      }
      forall k | 0 <= k < |notes|
        ensures End(notes[k]) <= FoldEnds(acc, notes)
      {
        if k < |init| {
          assert notes[k] == init[k];
        }
      }
    }
  }

  lemma {:induction false} FoldTracksIsMax(acc: real, tracks: seq<Track>)
    ensures FoldTracks(acc, tracks) >= acc
    ensures forall t, k :: 0 <= t < |tracks| && 0 <= k < |tracks[t].notes| ==>
              End(tracks[t].notes[k]) <= FoldTracks(acc, tracks)
    ensures FoldTracks(acc, tracks) == acc ||
            exists t, k :: 0 <= t < |tracks| && 0 <= k < |tracks[t].notes| &&
              End(tracks[t].notes[k]) == FoldTracks(acc, tracks)
    decreases |tracks|
  {
    if |tracks| > 0 {
      var init := tracks[..|tracks| - 1];
      var last := tracks[|tracks| - 1].notes;
      FoldTracksIsMax(acc, init);
      var a := FoldTracks(acc, init);
      FoldEndsIsMax(a, last);
      var m := FoldTracks(acc, tracks);
      assert m == FoldEnds(a, last);
      if m != acc {
        if m == a {
          var t, k :| 0 <= t < |init| && 0 <= k < |init[t].notes| && End(init[t].notes[k]) == a;
          assert tracks[t] == init[t];
        } else {
          var k :| 0 <= k < |last| && End(last[k]) == m;
          assert End(tracks[|tracks| - 1].notes[k]) == m;
        }
      }
      forall t, k | 0 <= t < |tracks| && 0 <= k < |tracks[t].notes|
        ensures End(tracks[t].notes[k]) <= m
      {
        if t < |init| {
          assert tracks[t] == init[t];
        }
      }
    }
  }

  /** The recomputed duration is the latest note end, or 0. */
  lemma MaxEndIsMax(tracks: seq<Track>)
    ensures IsMaxEnd(tracks, MaxEnd(tracks))
  {
    FoldTracksIsMax(0.0, tracks);
  }

  /** Only one value is the latest note end. */
  lemma IsMaxEndUnique(tracks: seq<Track>, m: real)
    requires IsMaxEnd(tracks, m)
    ensures m == MaxEnd(tracks)
  {
    MaxEndIsMax(tracks);
  }

  /** Appending a note to one track raises the latest end to the note's end
      if that is later. */
  lemma MaxEndAppend(tracks: seq<Track>, i: int, n: Note)
    requires 0 <= i < |tracks|
    ensures MaxEnd(tracks[i := tracks[i].(notes := tracks[i].notes + [n])]) ==
            MaxReal(MaxEnd(tracks), End(n))
  {
    var after := tracks[i := tracks[i].(notes := tracks[i].notes + [n])];
    var old_m := MaxEnd(tracks);
    var m := MaxReal(old_m, End(n));
    MaxEndIsMax(tracks);
    assert End(after[i].notes[|tracks[i].notes|]) == End(n);
    forall t, k | 0 <= t < |after| && 0 <= k < |after[t].notes|
      ensures End(after[t].notes[k]) <= m
    {
      if t != i || k < |tracks[i].notes| {
        assert after[t].notes[k] == tracks[t].notes[k];
      }
    }
    if m != 0.0 && m == old_m {
      var t, k :| 0 <= t < |tracks| && 0 <= k < |tracks[t].notes| && End(tracks[t].notes[k]) == old_m;
      assert after[t].notes[k] == tracks[t].notes[k];
    }
    IsMaxEndUnique(after, m);
  }

  /** A track with no notes leaves the latest end as it was. */
  lemma MaxEndAppendTrack(tracks: seq<Track>, tr: Track)
    requires tr.notes == []
    ensures MaxEnd(tracks + [tr]) == MaxEnd(tracks)
  {
    assert (tracks + [tr])[..|tracks|] == tracks;
  }

  // ---------------------------------------------------------------------
  // Quantization

  /** One note snapped to a grid of `grid` beats: the start to the nearest
      grid line, the duration to the nearest multiple but at least one grid
      step. */
  function QuantizeNote(n: Note, grid: real): Note
    requires grid > 0.0
  {
    n.(startTime := JsRound(n.startTime / grid) as real * grid,
       duration := MaxReal(grid, JsRound(n.duration / grid) as real * grid))
  }

  function QuantizeTrack(t: Track, grid: real): Track
    requires grid > 0.0
  {
    t.(notes := seq(|t.notes|, k requires 0 <= k < |t.notes| => QuantizeNote(t.notes[k], grid)))
  }

  function QuantizeTracks(tracks: seq<Track>, grid: real): seq<Track>
    requires grid > 0.0
  {
    seq(|tracks|, t requires 0 <= t < |tracks| => QuantizeTrack(tracks[t], grid))
  }

  /** The number of grid steps a quantized note lasts: the rounded
      duration, but at least one. */
  function DurationSteps(n: Note, grid: real): int
    requires grid > 0.0
  {
    var d := JsRound(n.duration / grid);
    if d >= 1 then d else 1
  }

  /** A quantized note starts on the grid line nearest its old start, lasts
      a whole number (at least one) of grid steps, and keeps its pitch and
      velocity. */
  lemma QuantizeNoteStart(n: Note, grid: real)
    requires grid > 0.0
    ensures QuantizeNote(n, grid).startTime == JsRound(n.startTime / grid) as real * grid
    ensures -grid / 2.0 < QuantizeNote(n, grid).startTime - n.startTime <= grid / 2.0
  {
    var r := JsRound(n.startTime / grid) as real;
    RoundLower(n.startTime, grid, r);
    RoundUpper(n.startTime, grid, r);
  }

  lemma QuantizeNoteDuration(n: Note, grid: real)
    requires grid > 0.0
    ensures DurationSteps(n, grid) >= 1
    ensures QuantizeNote(n, grid).duration == DurationSteps(n, grid) as real * grid
    ensures QuantizeNote(n, grid).pitch == n.pitch && QuantizeNote(n, grid).velocity == n.velocity
  {
    var d := JsRound(n.duration / grid);
    if d < 1 {
      MulMonotonic(d as real, 1.0, grid);
    } else {
      MulMonotonic(1.0, d as real, grid);
    }
  }

  /** Quantizing a quantized note changes nothing. */
  lemma QuantizeNoteIdempotent(n: Note, grid: real)
    requires grid > 0.0
    ensures QuantizeNote(QuantizeNote(n, grid), grid) == QuantizeNote(n, grid)
  {
    var q := QuantizeNote(n, grid);
    var r := JsRound(n.startTime / grid);
    assert q.startTime == r as real * grid;
    RoundOnGrid(r, grid);
    assert JsRound(q.startTime / grid) == r;
    QuantizeNoteDuration(n, grid);
    var steps := DurationSteps(n, grid);
    assert q.duration == steps as real * grid;
    RoundOnGrid(steps, grid);
    assert JsRound(q.duration / grid) == steps;
    MulMonotonic(1.0, steps as real, grid);
    assert MaxReal(grid, steps as real * grid) == q.duration;
  }

  lemma QuantizeTracksIdempotent(tracks: seq<Track>, grid: real)
    requires grid > 0.0
    ensures QuantizeTracks(QuantizeTracks(tracks, grid), grid) == QuantizeTracks(tracks, grid)
  {
    var once := QuantizeTracks(tracks, grid);
    var twice := QuantizeTracks(once, grid);
    forall t | 0 <= t < |tracks|
      ensures twice[t] == once[t]
    {
      forall k | 0 <= k < |once[t].notes|
        ensures twice[t].notes[k] == once[t].notes[k]
      {
        QuantizeNoteIdempotent(tracks[t].notes[k], grid);
      }
    }
  }

  // ---------------------------------------------------------------------
  // Transposition

  function TransposeTrack(t: Track, semitones: int): Track {
    t.(notes := seq(|t.notes|, k requires 0 <= k < |t.notes| =>
                      t.notes[k].(pitch := t.notes[k].pitch + semitones)))
  }

  function TransposeTracks(tracks: seq<Track>, semitones: int): seq<Track> {
    seq(|tracks|, t requires 0 <= t < |tracks| => TransposeTrack(tracks[t], semitones))
  }

  /** Transposing by 0 changes nothing, so the early return of `transpose`
      agrees with the loop. */
  lemma TransposeZero(tracks: seq<Track>)
    ensures TransposeTracks(tracks, 0) == tracks
  {
    var r := TransposeTracks(tracks, 0);
    forall t | 0 <= t < |tracks|
      ensures r[t] == tracks[t]
    {
      assert r[t].notes == tracks[t].notes;
    }
  }

  /** Two transpositions are one by the sum of the intervals. */
  lemma TransposeCompose(tracks: seq<Track>, a: int, b: int)
    ensures TransposeTracks(TransposeTracks(tracks, a), b) == TransposeTracks(tracks, a + b)
  {
    var lhs := TransposeTracks(TransposeTracks(tracks, a), b);
    var rhs := TransposeTracks(tracks, a + b);
    forall t | 0 <= t < |tracks|
      ensures lhs[t] == rhs[t]
    {
      assert lhs[t].notes == rhs[t].notes;
    }
  }

  /** Transposing back undoes a transposition. */
  lemma TransposeInverse(tracks: seq<Track>, semitones: int)
    ensures TransposeTracks(TransposeTracks(tracks, semitones), -semitones) == tracks
  {
    TransposeCompose(tracks, semitones, -semitones);
    TransposeZero(tracks);
  }

  /** Transposition moves no note in time. */
  lemma TransposeKeepsMaxEnd(tracks: seq<Track>, semitones: int)
    ensures MaxEnd(TransposeTracks(tracks, semitones)) == MaxEnd(tracks)
  {
    var after := TransposeTracks(tracks, semitones);
    var m := MaxEnd(tracks);
    MaxEndIsMax(tracks);
    forall t, k | 0 <= t < |after| && 0 <= k < |after[t].notes|
      ensures End(after[t].notes[k]) == End(tracks[t].notes[k])
    {
    }
    if m != 0.0 {
      var t, k :| 0 <= t < |tracks| && 0 <= k < |tracks[t].notes| && End(tracks[t].notes[k]) == m;
      assert End(after[t].notes[k]) == m;
    }
    IsMaxEndUnique(after, m);
  }

  // ---------------------------------------------------------------------
  // Collisions

  /** Same pitch and overlapping half-open time spans. */
  predicate Collide(a: Note, b: Note) {
    a.pitch == b.pitch && a.startTime < End(b) && End(a) > b.startTime
  }

  /** The pairs `(i, j')` with `i < j' < j` that collide, in order of `j'`. */
  function Row(notes: seq<Note>, i: nat, j: nat): seq<Collision>
    requires i < j <= |notes|
    decreases j
  {
    if j == i + 1 then []
    else Row(notes, i, j - 1) +
         (if Collide(notes[i], notes[j - 1]) then [Collision(i, j - 1)] else [])
  }

  /** The colliding pairs whose first index is below `i`, in lexicographic
      order. */
  function PairsBelow(notes: seq<Note>, i: nat): seq<Collision>
    requires i <= |notes|
    decreases i
  {
    if i == 0 then [] else PairsBelow(notes, i - 1) + Row(notes, i - 1, |notes|)
  }

  /** What `findNoteCollisions` returns for a track with these notes. */
  function Collisions(notes: seq<Note>): seq<Collision> {
    PairsBelow(notes, |notes|)
  }

  /** `p` is a pair of indices of `notes`, first below second, with the
      first below `i` and the second below `j`. */
  predicate InPairRange(p: Collision, notes: seq<Note>, i: int, j: int) {
    0 <= p.noteIndex1 < p.noteIndex2 < |notes| && p.noteIndex1 < i && p.noteIndex2 < j
  }

  predicate CollidingPair(p: Collision, notes: seq<Note>)
    requires 0 <= p.noteIndex1 < |notes| && 0 <= p.noteIndex2 < |notes|
  {
    Collide(notes[p.noteIndex1], notes[p.noteIndex2])
  }

  /** Strictly increasing in (first, second) order, hence no pair twice. */
  predicate LexIncreasing(ps: seq<Collision>) {
    forall a, b :: 0 <= a < b < |ps| ==>
      ps[a].noteIndex1 < ps[b].noteIndex1 ||
      (ps[a].noteIndex1 == ps[b].noteIndex1 && ps[a].noteIndex2 < ps[b].noteIndex2)
  }

  lemma {:induction false} RowContents(notes: seq<Note>, i: nat, j: nat)
    requires i < j <= |notes|
    ensures forall p :: p in Row(notes, i, j) <==>
              p.noteIndex1 == i && i < p.noteIndex2 < j && CollidingPair(p, notes)
    decreases j
  {
    if j > i + 1 {
      RowContents(notes, i, j - 1);
    }
  }

  lemma {:induction false} RowOrdered(notes: seq<Note>, i: nat, j: nat)
    requires i < j <= |notes|
    ensures LexIncreasing(Row(notes, i, j))
    ensures forall p :: p in Row(notes, i, j) ==> p.noteIndex1 == i && p.noteIndex2 < j
    decreases j
  {
    if j > i + 1 {
      RowOrdered(notes, i, j - 1);
    }
  }

  lemma {:induction false} PairsBelowContents(notes: seq<Note>, i: nat)
    requires i <= |notes|
    ensures forall p :: p in PairsBelow(notes, i) <==>
              InPairRange(p, notes, i, |notes|) && CollidingPair(p, notes)
    decreases i
  {
    if i > 0 {
      PairsBelowContents(notes, i - 1);
      RowContents(notes, i - 1, |notes|);
    }
  }

  lemma {:induction false} PairsBelowFirst(notes: seq<Note>, i: nat)
    requires i <= |notes|
    ensures forall p :: p in PairsBelow(notes, i) ==> p.noteIndex1 < i
    decreases i
  {
    if i > 0 {
      PairsBelowFirst(notes, i - 1);
      RowOrdered(notes, i - 1, |notes|);
    }
  }

  /** Two increasing runs stay increasing when every first index of the
      first run is below every first index of the second. */
  lemma LexConcat(a: seq<Collision>, b: seq<Collision>, i: int)
    requires LexIncreasing(a) && LexIncreasing(b)
    requires forall p :: p in a ==> p.noteIndex1 < i
    requires forall p :: p in b ==> p.noteIndex1 == i
    ensures LexIncreasing(a + b)
  {
    var ab := a + b;
    forall x: int, y: int | 0 <= x < y < |ab|
      ensures ab[x].noteIndex1 < ab[y].noteIndex1 ||
              (ab[x].noteIndex1 == ab[y].noteIndex1 && ab[x].noteIndex2 < ab[y].noteIndex2)
    {
      if x < |a| && y >= |a| {
        assert ab[x] == a[x] && a[x] in a;
        assert ab[y] == b[y - |a|] && b[y - |a|] in b;
      } else if x >= |a| {
        assert ab[x] == b[x - |a|];
        assert ab[y] == b[y - |a|];
      } else {
        assert ab[x] == a[x] && ab[y] == a[y];
      }
    }
  }

  lemma {:induction false} PairsBelowOrdered(notes: seq<Note>, i: nat)
    requires i <= |notes|
    ensures LexIncreasing(PairsBelow(notes, i))
    decreases i
  {
    if i > 0 {
      PairsBelowOrdered(notes, i - 1);
      PairsBelowFirst(notes, i - 1);
      RowOrdered(notes, i - 1, |notes|);
      var a := PairsBelow(notes, i - 1);
      var b := Row(notes, i - 1, |notes|);
      assert PairsBelow(notes, i) == a + b;
      LexConcat(a, b, i - 1);
    }
  }

  /** `findNoteCollisions` reports exactly the colliding pairs `i < j`, each
      once, in lexicographic order. */
  lemma CollisionsAreThePairs(notes: seq<Note>)
    ensures forall p :: p in Collisions(notes) <==>
              0 <= p.noteIndex1 < p.noteIndex2 < |notes| && CollidingPair(p, notes)
    ensures LexIncreasing(Collisions(notes))
  {
    PairsBelowContents(notes, |notes|);
    PairsBelowOrdered(notes, |notes|);
  }

  // ---------------------------------------------------------------------
  // The sequence object

  class MidiSequence {
    var tempo: real
    var timeSignature: TimeSignature
    var ticksPerBeat: int
    var tracks: seq<Track>
    var totalDuration: real

    /** `totalDuration` is the latest note end; it holds after every
        operation except `AddTrack` with pre-filled notes. */
    predicate DurationIsMaxEnd()
      reads this
    {
      totalDuration == MaxEnd(tracks)
    }

    /** A new sequence: the option values, falling back to 120 BPM, 4/4 and
        480 ticks per beat, with one empty piano track named `Track 1`. */
    constructor(options: Options)
      ensures tempo == (if options.tempo.Some? && options.tempo.value != 0.0
                        then options.tempo.value else DefaultTempo)
      ensures timeSignature == options.timeSignature.GetOr(TimeSignature(4, 4))
      ensures ticksPerBeat == (if options.ticksPerBeat.Some? && options.ticksPerBeat.value != 0
                               then options.ticksPerBeat.value else DefaultTicksPerBeat)
      ensures tracks == [Track("Track 1", 0, [])]
      ensures totalDuration == 0.0
      ensures DurationIsMaxEnd()
    {
      tempo := if options.tempo.Some? && options.tempo.value != 0.0
               then options.tempo.value else DefaultTempo;
      timeSignature := options.timeSignature.GetOr(TimeSignature(4, 4));
      ticksPerBeat := if options.ticksPerBeat.Some? && options.ticksPerBeat.value != 0
                      then options.ticksPerBeat.value else DefaultTicksPerBeat;
      tracks := [];
      totalDuration := 0.0;
      new;
      var _ := AddTrack(TrackData(Some("Track 1"), Some(0), None));
    }

    /** Appends `NewTrack(data, |tracks|)` and returns its index; the
        duration is not updated, so pre-filled notes can leave it behind. */
    method AddTrack(data: TrackData) returns (index: int)
      modifies this
      ensures tracks == old(tracks) + [NewTrack(data, |old(tracks)|)]
      ensures index == |old(tracks)| && tracks[index] == NewTrack(data, index)
      ensures totalDuration == old(totalDuration)
      ensures tempo == old(tempo) && timeSignature == old(timeSignature)
      ensures ticksPerBeat == old(ticksPerBeat)
      ensures old(DurationIsMaxEnd()) && data.notes.None? ==> DurationIsMaxEnd()
    {
      var track := NewTrack(data, |tracks|);
      if data.notes.None? {
        MaxEndAppendTrack(tracks, track);
      }
      tracks := tracks + [track];
      index := |tracks| - 1;
    }

    /** Appends `NewNote(data)` to track `trackIndex` and raises the duration
        to the note's end if that is later; an index outside the tracks is an
        error and changes nothing. */
    method AddNote(trackIndex: int, data: NoteData) returns (r: Result<Note, SequenceError>)
      modifies this
      ensures !(0 <= trackIndex < |old(tracks)|) ==>
                r == Err(TrackOutOfBounds(trackIndex)) && tracks == old(tracks) &&
                totalDuration == old(totalDuration)
      ensures 0 <= trackIndex < |old(tracks)| ==>
                && r == Ok(NewNote(data))
                && tracks == old(tracks)[trackIndex :=
                     old(tracks)[trackIndex].(notes := old(tracks)[trackIndex].notes + [NewNote(data)])]
                && totalDuration == MaxReal(old(totalDuration), End(NewNote(data)))
      ensures tempo == old(tempo) && timeSignature == old(timeSignature)
      ensures ticksPerBeat == old(ticksPerBeat)
      ensures old(DurationIsMaxEnd()) ==> DurationIsMaxEnd()
    {
      if trackIndex < 0 || trackIndex >= |tracks| {
        return Err(TrackOutOfBounds(trackIndex));
      }
      var note := NewNote(data);
      MaxEndAppend(tracks, trackIndex, note);
      tracks := tracks[trackIndex := tracks[trackIndex].(notes := tracks[trackIndex].notes + [note])];
      var noteEnd := End(note);
      if noteEnd > totalDuration {
        totalDuration := noteEnd;
      }
      return Ok(note);
    }

    /** Removes note `noteIndex` of track `trackIndex` and recomputes the
        duration; `false`, changing nothing, when either index is outside. */
    method RemoveNote(trackIndex: int, noteIndex: int) returns (removed: bool)
      modifies this
      ensures removed <==> 0 <= trackIndex < |old(tracks)| &&
                           0 <= noteIndex < |old(tracks)[trackIndex].notes|
      ensures !removed ==> tracks == old(tracks) && totalDuration == old(totalDuration)
      ensures removed ==>
                && |tracks| == |old(tracks)|
                && tracks == old(tracks)[trackIndex := old(tracks)[trackIndex].(notes :=
                     old(tracks)[trackIndex].notes[..noteIndex] +
                     old(tracks)[trackIndex].notes[noteIndex + 1..])]
                && DurationIsMaxEnd()
      ensures tempo == old(tempo) && timeSignature == old(timeSignature)
      ensures ticksPerBeat == old(ticksPerBeat)
    {
      if trackIndex < 0 || trackIndex >= |tracks| ||
         noteIndex < 0 || noteIndex >= |tracks[trackIndex].notes| {
        return false;
      }
      var notes := tracks[trackIndex].notes;
      tracks := tracks[trackIndex := tracks[trackIndex].(notes := notes[..noteIndex] + notes[noteIndex + 1..])];
      RecalculateDuration();
      return true;
    }

    /** The duration in beats. */
    function GetDuration(): (d: real)
      reads this
      ensures DurationIsMaxEnd() ==> IsMaxEnd(tracks, d)
    {
      MaxEndIsMax(tracks);
      totalDuration
    }

    /** Sets the duration to the latest note end, visiting every note of
        every track in order. */
    method RecalculateDuration()
      modifies this
      ensures tracks == old(tracks) && totalDuration == MaxEnd(tracks)
      ensures tempo == old(tempo) && timeSignature == old(timeSignature)
      ensures ticksPerBeat == old(ticksPerBeat)
    {
      totalDuration := 0.0;
      var i := 0;
      while i < |tracks|
        invariant 0 <= i <= |tracks|
        invariant tracks == old(tracks) && tempo == old(tempo)
        invariant timeSignature == old(timeSignature) && ticksPerBeat == old(ticksPerBeat)
        invariant totalDuration == FoldTracks(0.0, tracks[..i])
      {
        var notes := tracks[i].notes;
        var before := totalDuration;
        var j := 0;
        while j < |notes|
          invariant 0 <= j <= |notes|
          invariant tracks == old(tracks) && tempo == old(tempo)
          invariant timeSignature == old(timeSignature) && ticksPerBeat == old(ticksPerBeat)
          invariant totalDuration == FoldEnds(before, notes[..j])
        {
          assert notes[..j + 1][..j] == notes[..j];
          var noteEnd := End(notes[j]);
          if noteEnd > totalDuration {
            totalDuration := noteEnd;
          }
          j := j + 1;
        }
        assert notes[..j] == notes;
        assert tracks[..i + 1][..i] == tracks[..i];
        i := i + 1;
      }
      assert tracks[..i] == tracks;
    }

    /** Snaps every note to the grid, a sixteenth (0.25 beats) by default,
        then recomputes the duration. */
    method QuantizeNotes(gridSize: Option<real>)
      requires gridSize.GetOr(0.25) > 0.0
      modifies this
      ensures tracks == QuantizeTracks(old(tracks), gridSize.GetOr(0.25))
      ensures DurationIsMaxEnd()
      ensures tempo == old(tempo) && timeSignature == old(timeSignature)
      ensures ticksPerBeat == old(ticksPerBeat)
    {
      var grid := gridSize.GetOr(0.25);
      var i := 0;
      while i < |tracks|
        invariant 0 <= i <= |tracks| == |old(tracks)|
        invariant forall t :: 0 <= t < i ==> tracks[t] == QuantizeTrack(old(tracks)[t], grid)
        invariant forall t :: i <= t < |tracks| ==> tracks[t] == old(tracks)[t]
        invariant tempo == old(tempo) && timeSignature == old(timeSignature)
        invariant ticksPerBeat == old(ticksPerBeat)
      {
        var notes := tracks[i].notes;
        var j := 0;
        while j < |notes|
          invariant 0 <= j <= |notes| == |old(tracks)[i].notes|
          invariant forall k :: 0 <= k < j ==> notes[k] == QuantizeNote(old(tracks)[i].notes[k], grid)
          invariant forall k :: j <= k < |notes| ==> notes[k] == old(tracks)[i].notes[k]
        {
          notes := notes[j := QuantizeNote(notes[j], grid)];
          j := j + 1;
        }
        assert notes == QuantizeTrack(old(tracks)[i], grid).notes;
        tracks := tracks[i := tracks[i].(notes := notes)];
        i := i + 1;
      }
      assert tracks == QuantizeTracks(old(tracks), grid);
      RecalculateDuration();
    }

    /** Moves every note by `semitones`; by 0 it returns at once. */
    method Transpose(semitones: int)
      modifies this
      ensures tracks == TransposeTracks(old(tracks), semitones)
      ensures totalDuration == old(totalDuration)
      ensures old(DurationIsMaxEnd()) ==> DurationIsMaxEnd()
      ensures tempo == old(tempo) && timeSignature == old(timeSignature)
      ensures ticksPerBeat == old(ticksPerBeat)
    {
      TransposeKeepsMaxEnd(tracks, semitones);
      if semitones == 0 {
        TransposeZero(tracks);
        return;
      }
      var i := 0;
      while i < |tracks|
        invariant 0 <= i <= |tracks| == |old(tracks)|
        invariant forall t :: 0 <= t < i ==> tracks[t] == TransposeTrack(old(tracks)[t], semitones)
        invariant forall t :: i <= t < |tracks| ==> tracks[t] == old(tracks)[t]
        invariant totalDuration == old(totalDuration)
        invariant tempo == old(tempo) && timeSignature == old(timeSignature)
        invariant ticksPerBeat == old(ticksPerBeat)
      {
        var notes := tracks[i].notes;
        var j := 0;
        while j < |notes|
          invariant 0 <= j <= |notes| == |old(tracks)[i].notes|
          invariant forall k :: 0 <= k < j ==>
                      notes[k] == old(tracks)[i].notes[k].(pitch := old(tracks)[i].notes[k].pitch + semitones)
          invariant forall k :: j <= k < |notes| ==> notes[k] == old(tracks)[i].notes[k]
        {
          notes := notes[j := notes[j].(pitch := notes[j].pitch + semitones)];
          j := j + 1;
        }
        assert notes == TransposeTrack(old(tracks)[i], semitones).notes;
        tracks := tracks[i := tracks[i].(notes := notes)];
        i := i + 1;
      }
      assert tracks == TransposeTracks(old(tracks), semitones);
    }

    /** The colliding note pairs of track `trackIndex`; none for an index
        outside the tracks. */
    method FindNoteCollisions(trackIndex: int) returns (collisions: seq<Collision>)
      ensures !(0 <= trackIndex < |tracks|) ==> collisions == []
      ensures 0 <= trackIndex < |tracks| ==> collisions == Collisions(tracks[trackIndex].notes)
    {
      if trackIndex < 0 || trackIndex >= |tracks| {
        return [];
      }
      collisions := [];
      var notes := tracks[trackIndex].notes;
      var i := 0;
      while i < |notes|
        invariant 0 <= i <= |notes|
        invariant collisions == PairsBelow(notes, i)
      {
        var j := i + 1;
        while j < |notes|
          invariant i + 1 <= j <= |notes|
          invariant collisions == PairsBelow(notes, i) + Row(notes, i, j)
        {
          var note1 := notes[i];
          var note2 := notes[j];
          if note1.pitch == note2.pitch {
            var note1End := note1.startTime + note1.duration;
            var note2End := note2.startTime + note2.duration;
            if note1.startTime < note2End && note1End > note2.startTime {
              collisions := collisions + [Collision(i, j)];
            }
          }
          j := j + 1;
        }
        i := i + 1;
      }
    }
  }
}
