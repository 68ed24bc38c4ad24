// `DrumPatternGenerator` of src/core/patternGenerator.js: a basic beat
// (kick, snare and hi-hat on a step grid) and a one-or-more-bar fill (toms,
// snare, kick and a closing crash). The fill's `Math.random` calls become
// two parameters giving the draws for each step.
module CoreDrumPatternGenerator {
  import opened JsSupport

  /** The `drumNotes` table (General MIDI percussion numbers). */
  const KICK: int := 36
  const SNARE: int := 38
  const HIHAT: int := 42
  const OPEN_HIHAT: int := 46
  const TOM1: int := 48
  const TOM2: int := 45
  const TOM3: int := 43
  const CRASH: int := 49
  const RIDE: int := 51

  datatype DrumNote = DrumNote(pitch: int, startTime: real, duration: real, velocity: int)

  /** The object `generateBasicBeat` returns: one list per drum. */
  datatype BasicBeat = BasicBeat(
    kick: seq<DrumNote>, snare: seq<DrumNote>, hihat: seq<DrumNote>, openHihat: seq<DrumNote>,
    tom1: seq<DrumNote>, tom2: seq<DrumNote>, tom3: seq<DrumNote>, crash: seq<DrumNote>,
    ride: seq<DrumNote>)

  /** The object `generateFill` returns. */
  datatype Fill = Fill(
    kick: seq<DrumNote>, snare: seq<DrumNote>, tom1: seq<DrumNote>, tom2: seq<DrumNote>,
    tom3: seq<DrumNote>, crash: seq<DrumNote>)

  function IntAbs(x: int): nat {
    if x < 0 then -x else x
  }

  /** `step % d === 0` for a step of the loop: false for `d == 0`, where
      the remainder is NaN; the sign of `d` does not matter. */
  predicate Multiple(step: nat, d: int) {
    d != 0 && step % IntAbs(d) == 0
  }

  /** `step % (division / 2) === 0`: the half-division is a real number,
      and `step` is a multiple of it exactly when `division` divides
      `2 * step`. */
  predicate HalfMultiple(step: nat, division: int) {
    Multiple(2 * step, division)
  }

  // ---------------------------------------------------------------------
  // generateBasicBeat

  /** The drums the basic beat plays. */
  datatype BeatVoice = BeatKick | BeatSnare | BeatHihat

  /** `step * stepDuration` with `stepDuration = 1 / division`. */
  function BeatTime(step: nat, division: int): real {
    step as real * StepLength(division)
  }

  function StepLength(division: int): real {
    if division == 0 then 0.0 else 1.0 / division as real
  }

  /** The note a drum plays at a step, if any. */
  function BeatHit(voice: BeatVoice, beats: int, division: int, step: nat): Option<DrumNote> {
    var time := BeatTime(step, division);
    var length := StepLength(division);
    match voice
    case BeatKick =>
      if Multiple(step, division) || (beats == 4 && step == division * 2) then
        Some(DrumNote(KICK, time, length, if Multiple(step, division) then 100 else 80))
      else None
    case BeatSnare =>
      if (beats == 4 && (step == division || step == division * 3)) || (beats == 3 && step == division * 2) then
        Some(DrumNote(SNARE, time, length, 90))
      else None
    case BeatHihat =>
      if HalfMultiple(step, division) then
        Some(DrumNote(HIHAT, time, length, if Multiple(step, division) then 90 else 70))
      else None
  }

  function Hits(hit: Option<DrumNote>): seq<DrumNote> {
    if hit.Some? then [hit.value] else []
  }

  /** A drum's list after the first `j` steps. */
  function BeatNotes(voice: BeatVoice, beats: int, division: int, j: nat): seq<DrumNote> {
    if j == 0 then [] else BeatNotes(voice, beats, division, j - 1) + Hits(BeatHit(voice, beats, division, j - 1))
  }

  /** The kick branch of one step of the loop. */
  method KickAt(b: int, d: int, step: nat, stepDuration: real) returns (hit: seq<DrumNote>)
    requires stepDuration == StepLength(d)
    ensures hit == Hits(BeatHit(BeatKick, b, d, step))
  {
    var startTime := BeatTime(step, d);
    hit := [];
    if Multiple(step, d) || (b == 4 && step == d * 2) {
      hit := [DrumNote(KICK, startTime, stepDuration, if Multiple(step, d) then 100 else 80)];
    }
  }

  /** The snare branch of one step of the loop. */
  method SnareAt(b: int, d: int, step: nat, stepDuration: real) returns (hit: seq<DrumNote>)
    requires stepDuration == StepLength(d)
    ensures hit == Hits(BeatHit(BeatSnare, b, d, step))
  {
    var startTime := BeatTime(step, d);
    hit := [];
    if (b == 4 && (step == d || step == d * 3)) || (b == 3 && step == d * 2) {
      hit := [DrumNote(SNARE, startTime, stepDuration, 90)];
    }
  }

  /** The hi-hat branch of one step of the loop. */
  method HihatAt(d: int, step: nat, stepDuration: real) returns (hit: seq<DrumNote>)
    requires stepDuration == StepLength(d)
    ensures forall b :: hit == Hits(BeatHit(BeatHihat, b, d, step))
  {
    var startTime := BeatTime(step, d);
    hit := [];
    if HalfMultiple(step, d) {
      hit := [DrumNote(HIHAT, startTime, stepDuration, if Multiple(step, d) then 90 else 70)];
    }
  }

  /** `generateBasicBeat`: `beats * division` steps; the drums the loop
      never touches stay empty. */
  method GenerateBasicBeat(beats: Option<int>, division: Option<int>) returns (pattern: BasicBeat)
    ensures var b := beats.GetOr(4);
            var d := division.GetOr(4);
            pattern == BasicBeat(BeatNotes(BeatKick, b, d, Rounds(b * d)), BeatNotes(BeatSnare, b, d, Rounds(b * d)),
                                 BeatNotes(BeatHihat, b, d, Rounds(b * d)), [], [], [], [], [], [])
  {
    var b := beats.GetOr(4);
    var d := division.GetOr(4);
    var totalSteps := b * d;
    var stepDuration := StepLength(d);
    var kick: seq<DrumNote> := [];
    var snare: seq<DrumNote> := [];
    var hihat: seq<DrumNote> := [];
    var step := 0;
    while step < totalSteps
      invariant 0 <= step <= Rounds(totalSteps)
      invariant kick == BeatNotes(BeatKick, b, d, step)
      invariant snare == BeatNotes(BeatSnare, b, d, step)
      invariant hihat == BeatNotes(BeatHihat, b, d, step)
    {
        var kickHit := KickAt(b, d, step, stepDuration);
      var snareHit := SnareAt(b, d, step, stepDuration);
      var hihatHit := HihatAt(d, step, stepDuration);
      kick := kick + kickHit;
      snare := snare + snareHit;
      hihat := hihat + hihatHit;
      step := step + 1;
    }
    assert step == Rounds(totalSteps);
    pattern := BasicBeat(kick, snare, hihat, [], [], [], [], [], []);
  }

  /** A drum's list holds exactly the hits of the steps so far. */
  lemma {:induction false} BeatNotesContents(voice: BeatVoice, beats: int, division: int, j: nat)
    ensures forall step: nat :: step < j && BeatHit(voice, beats, division, step).Some? ==>
              BeatHit(voice, beats, division, step).value in BeatNotes(voice, beats, division, j)
    ensures forall n :: n in BeatNotes(voice, beats, division, j) ==>
              exists step: nat :: step < j && BeatHit(voice, beats, division, step) == Some(n)
  {
    if j > 0 {
      BeatNotesContents(voice, beats, division, j - 1);
    }
  }

  /** The kick plays on every beat, always at full velocity: the extra
      beat-3 clause of 4/4 names a step that is already on a beat. */
  lemma KickOnBeats(beats: int, division: int, step: nat)
    requires division != 0
    ensures BeatHit(BeatKick, beats, division, step).Some? <==> Multiple(step, division)
    ensures BeatHit(BeatKick, beats, division, step).Some? ==> BeatHit(BeatKick, beats, division, step).value.velocity == 100
  {
    if beats == 4 && step == division * 2 {
      assert division > 0 && IntAbs(division) == division;
      RemainderUnique(step, division, 2, 0);
    }
  }

  /** In 4/4 the snare plays on beats 2 and 4, in 3/4 on beat 3, and in any
      other metre not at all. */
  lemma SnareOnBackbeats(beats: int, division: int, step: nat)
    ensures BeatHit(BeatSnare, beats, division, step).Some? <==>
              (beats == 4 && (step == division || step == 3 * division)) || (beats == 3 && step == 2 * division)
    ensures BeatHit(BeatSnare, beats, division, step).Some? ==> BeatHit(BeatSnare, beats, division, step).value.velocity == 90
  {
  }

  /** The hi-hat plays every half beat, louder on the beat. */
  lemma HihatOnHalfBeats(beats: int, division: int, step: nat)
    ensures BeatHit(BeatHihat, beats, division, step).Some? <==> HalfMultiple(step, division)
    ensures BeatHit(BeatHihat, beats, division, step).Some? ==>
              BeatHit(BeatHihat, beats, division, step).value.velocity == (if Multiple(step, division) then 90 else 70)
  {
  }

  /** Every note of a drum's list lasts one step and starts before step `j`. */
  lemma {:induction false} BeatNotesBefore(voice: BeatVoice, beats: int, division: int, j: nat)
    requires division > 0
    ensures forall n :: n in BeatNotes(voice, beats, division, j) ==>
              n.duration == StepLength(division) && 0.0 <= n.startTime < BeatTime(j, division)
  {
    if j > 0 {
      BeatNotesBefore(voice, beats, division, j - 1);
      TimeMonotonic(j - 1, j, division);
      forall n | n in BeatNotes(voice, beats, division, j - 1)
        ensures n.startTime < BeatTime(j, division)
      {
        TimeMonotonic(j - 1, j, division);
      }
    }
  }

  lemma TimeMonotonic(a: nat, b: nat, division: int)
    requires a < b && division > 0
    ensures 0.0 <= BeatTime(a, division) < BeatTime(b, division)
  {
    var s := 1.0 / division as real;
    assert s > 0.0;
    assert a as real * s < b as real * s;
  }

  /** Each drum's list is in time order, one note per step at most. */
  lemma {:induction false} BeatNotesAscending(voice: BeatVoice, beats: int, division: int, j: nat)
    requires division > 0
    ensures forall x, y :: 0 <= x < y < |BeatNotes(voice, beats, division, j)| ==>
              BeatNotes(voice, beats, division, j)[x].startTime < BeatNotes(voice, beats, division, j)[y].startTime
  {
    if j > 0 {
      BeatNotesAscending(voice, beats, division, j - 1);
      BeatNotesBefore(voice, beats, division, j - 1);
      var prev := BeatNotes(voice, beats, division, j - 1);
      var all := BeatNotes(voice, beats, division, j);
      assert all == prev + Hits(BeatHit(voice, beats, division, j - 1));
      forall x, y | 0 <= x < y < |all|
        ensures all[x].startTime < all[y].startTime
      {
        if y >= |prev| {
          assert all[x] == prev[x] && prev[x] in prev;
        }
      }
    }
  }

  // ---------------------------------------------------------------------
  // generateFill

  const FILL_STEP: real := 1.0 / 16.0

  /** The drums the loop of the fill plays. */
  datatype FillVoice = FillKick | FillSnare | FillTom1 | FillTom2 | FillTom3

  /** `Math.random` stands for values in [0, 1). */
  ghost predicate IsRandom(draw: int -> real) {
    forall step :: 0.0 <= draw(step) < 1.0
  }

  /** `Math.floor(random * 3)` as a tom: 0 is tom1, 1 is tom2, 2 is tom3. */
  function TomChoice(random: real): (voice: FillVoice)
    requires 0.0 <= random < 1.0
    ensures voice == FillTom1 || voice == FillTom2 || voice == FillTom3
  {
    var choice := (random * 3.0).Floor;
    if choice == 0 then FillTom1 else if choice == 1 then FillTom2 else FillTom3
  }

  /** `80 + Math.floor(random * 20)`. */
  function TomVelocity(random: real): (v: int)
    requires 0.0 <= random < 1.0
    ensures 80 <= v < 100
  {
    assert random * 20.0 < 20.0;
    80 + (random * 20.0).Floor
  }

  function TomPitch(voice: FillVoice): int {
    match voice
    case FillTom1 => TOM1
    case FillTom2 => TOM2
    case _ => TOM3
  }

  /** The note a drum of the fill plays at a step, where `tomDraw(step)`
      and `velocityDraw(step)` are the two values `Math.random` returns
      on an even step. */
  function FillHit(voice: FillVoice, totalSteps: int, tomDraw: int -> real, velocityDraw: int -> real,
                   step: nat): Option<DrumNote>
    requires IsRandom(tomDraw) && IsRandom(velocityDraw)
  {
    var time := step as real * FILL_STEP;
    match voice
    case FillKick =>
      if step == 0 || step == totalSteps - 1 then Some(DrumNote(KICK, time, FILL_STEP, 100)) else None
    case FillSnare =>
      if step % 3 == 0 then Some(DrumNote(SNARE, time, FILL_STEP, 90)) else None
    case _ =>
      if step % 2 == 0 && TomChoice(tomDraw(step)) == voice then
        Some(DrumNote(TomPitch(voice), time, FILL_STEP, TomVelocity(velocityDraw(step))))
      else None
  }

  /** A drum's list after the first `j` steps of the fill. */
  function FillNotes(voice: FillVoice, totalSteps: int, tomDraw: int -> real, velocityDraw: int -> real,
                     j: nat): seq<DrumNote>
    requires IsRandom(tomDraw) && IsRandom(velocityDraw)
  {
    if j == 0 then []
    else FillNotes(voice, totalSteps, tomDraw, velocityDraw, j - 1) +
         Hits(FillHit(voice, totalSteps, tomDraw, velocityDraw, j - 1))
  }

  /** The tom branch of one step of the fill: two draws pick the tom and
      its velocity on an even step. */
  method TomsAt(totalSteps: int, tomDraw: int -> real, velocityDraw: int -> real, step: nat)
    returns (tom1: seq<DrumNote>, tom2: seq<DrumNote>, tom3: seq<DrumNote>)
    requires IsRandom(tomDraw) && IsRandom(velocityDraw)
    ensures tom1 == Hits(FillHit(FillTom1, totalSteps, tomDraw, velocityDraw, step))
    ensures tom2 == Hits(FillHit(FillTom2, totalSteps, tomDraw, velocityDraw, step))
    ensures tom3 == Hits(FillHit(FillTom3, totalSteps, tomDraw, velocityDraw, step))
  {
    var startTime := step as real * FILL_STEP;
    tom1, tom2, tom3 := [], [], [];
    if step % 2 == 0 {
      var tom := TomChoice(tomDraw(step));
      var note := DrumNote(TomPitch(tom), startTime, FILL_STEP, TomVelocity(velocityDraw(step)));
      if tom == FillTom1 {
        tom1 := [note];
      } else if tom == FillTom2 {
        tom2 := [note];
      } else {
        tom3 := [note];
      }
    }
  }

  /** The snare branch of one step of the fill. */
  method FillSnareAt(totalSteps: int, tomDraw: int -> real, velocityDraw: int -> real, step: nat)
    returns (hit: seq<DrumNote>)
    requires IsRandom(tomDraw) && IsRandom(velocityDraw)
    ensures hit == Hits(FillHit(FillSnare, totalSteps, tomDraw, velocityDraw, step))
  {
    hit := [];
    if step % 3 == 0 {
      hit := [DrumNote(SNARE, step as real * FILL_STEP, FILL_STEP, 90)];
    }
  }

  /** The kick branch of one step of the fill. */
  method FillKickAt(totalSteps: int, tomDraw: int -> real, velocityDraw: int -> real, step: nat)
    returns (hit: seq<DrumNote>)
    requires IsRandom(tomDraw) && IsRandom(velocityDraw)
    ensures hit == Hits(FillHit(FillKick, totalSteps, tomDraw, velocityDraw, step))
  {
    hit := [];
    if step == 0 || step == totalSteps - 1 {
      hit := [DrumNote(KICK, step as real * FILL_STEP, FILL_STEP, 100)];
    }
  }

  /** `generateFill`: `bars * 16` sixteenth steps, then one crash on the
      last sixteenth of the fill lasting two steps. */
  method GenerateFill(bars: Option<int>, tomDraw: int -> real, velocityDraw: int -> real) returns (fill: Fill)
    requires IsRandom(tomDraw) && IsRandom(velocityDraw)
    ensures var b := bars.GetOr(1);
            var total := b * 16;
            fill == Fill(FillNotes(FillKick, total, tomDraw, velocityDraw, Rounds(total)),
                         FillNotes(FillSnare, total, tomDraw, velocityDraw, Rounds(total)),
                         FillNotes(FillTom1, total, tomDraw, velocityDraw, Rounds(total)),
                         FillNotes(FillTom2, total, tomDraw, velocityDraw, Rounds(total)),
                         FillNotes(FillTom3, total, tomDraw, velocityDraw, Rounds(total)),
                         [DrumNote(CRASH, b as real - FILL_STEP, FILL_STEP * 2.0, 100)])
  {
    var b := bars.GetOr(1);
    var totalSteps := b * 16;
    var kick: seq<DrumNote> := [];
    var snare: seq<DrumNote> := [];
    var tom1: seq<DrumNote> := [];
    var tom2: seq<DrumNote> := [];
    var tom3: seq<DrumNote> := [];
    var step := 0;
    while step < totalSteps
      invariant 0 <= step <= Rounds(totalSteps)
      invariant kick == FillNotes(FillKick, totalSteps, tomDraw, velocityDraw, step)
      invariant snare == FillNotes(FillSnare, totalSteps, tomDraw, velocityDraw, step)
      invariant tom1 == FillNotes(FillTom1, totalSteps, tomDraw, velocityDraw, step)
      invariant tom2 == FillNotes(FillTom2, totalSteps, tomDraw, velocityDraw, step)
      invariant tom3 == FillNotes(FillTom3, totalSteps, tomDraw, velocityDraw, step)
    {
      var tom1Hit, tom2Hit, tom3Hit := TomsAt(totalSteps, tomDraw, velocityDraw, step);
      tom1 := tom1 + tom1Hit;
      tom2 := tom2 + tom2Hit;
      tom3 := tom3 + tom3Hit;
      var snareHit := FillSnareAt(totalSteps, tomDraw, velocityDraw, step);
      snare := snare + snareHit;
      var kickHit := FillKickAt(totalSteps, tomDraw, velocityDraw, step);
      kick := kick + kickHit;
      assert kick == FillNotes(FillKick, totalSteps, tomDraw, velocityDraw, step + 1);
      assert snare == FillNotes(FillSnare, totalSteps, tomDraw, velocityDraw, step + 1);
      assert tom1 == FillNotes(FillTom1, totalSteps, tomDraw, velocityDraw, step + 1);
      assert tom2 == FillNotes(FillTom2, totalSteps, tomDraw, velocityDraw, step + 1);
      assert tom3 == FillNotes(FillTom3, totalSteps, tomDraw, velocityDraw, step + 1);
      step := step + 1;
    }
    assert step == Rounds(totalSteps);
    fill := Fill(kick, snare, tom1, tom2, tom3, [DrumNote(CRASH, b as real - FILL_STEP, FILL_STEP * 2.0, 100)]);
  }

  /** A drum's list of the fill holds exactly the hits of the steps so far. */
  lemma {:induction false} FillNotesContents(voice: FillVoice, totalSteps: int, tomDraw: int -> real,
                                             velocityDraw: int -> real, j: nat)
    requires IsRandom(tomDraw) && IsRandom(velocityDraw)
    ensures forall step: nat :: step < j && FillHit(voice, totalSteps, tomDraw, velocityDraw, step).Some? ==>
              FillHit(voice, totalSteps, tomDraw, velocityDraw, step).value in
                FillNotes(voice, totalSteps, tomDraw, velocityDraw, j)
    ensures forall n :: n in FillNotes(voice, totalSteps, tomDraw, velocityDraw, j) ==>
              exists step: nat :: step < j && FillHit(voice, totalSteps, tomDraw, velocityDraw, step) == Some(n)
  {
    if j > 0 {
      FillNotesContents(voice, totalSteps, tomDraw, velocityDraw, j - 1);
    }
  }

  /** Every even step plays exactly one of the three toms, at a velocity
      in [80, 100); odd steps play none. */
  lemma OneTomPerEvenStep(totalSteps: int, tomDraw: int -> real, velocityDraw: int -> real, step: nat)
    requires IsRandom(tomDraw) && IsRandom(velocityDraw)
    ensures var t1 := FillHit(FillTom1, totalSteps, tomDraw, velocityDraw, step).Some?;
            var t2 := FillHit(FillTom2, totalSteps, tomDraw, velocityDraw, step).Some?;
            var t3 := FillHit(FillTom3, totalSteps, tomDraw, velocityDraw, step).Some?;
            (step % 2 == 0 ==> (t1 || t2 || t3) && !(t1 && t2) && !(t1 && t3) && !(t2 && t3)) &&
            (step % 2 == 1 ==> !t1 && !t2 && !t3)
    ensures forall voice :: (FillHit(voice, totalSteps, tomDraw, velocityDraw, step).Some? &&
                             voice != FillKick && voice != FillSnare) ==>
              80 <= FillHit(voice, totalSteps, tomDraw, velocityDraw, step).value.velocity < 100
  {
  }

  /** The kick plays on the first and the last step only; the snare on
      every third step. */
  lemma FillKickAndSnare(totalSteps: int, tomDraw: int -> real, velocityDraw: int -> real, step: nat)
    requires IsRandom(tomDraw) && IsRandom(velocityDraw)
    ensures FillHit(FillKick, totalSteps, tomDraw, velocityDraw, step).Some? <==>
              step == 0 || step == totalSteps - 1
    ensures FillHit(FillSnare, totalSteps, tomDraw, velocityDraw, step).Some? <==> step % 3 == 0
  {
  }

  /** Over a fill of `n` steps the kick list has two notes, at the first
      and the last step. */
  lemma {:induction false} FillKicks(totalSteps: int, tomDraw: int -> real, velocityDraw: int -> real, j: nat)
    requires IsRandom(tomDraw) && IsRandom(velocityDraw)
    requires 2 <= j <= totalSteps
    ensures FillNotes(FillKick, totalSteps, tomDraw, velocityDraw, j) ==
              [DrumNote(KICK, 0.0, FILL_STEP, 100)] +
              (if j == totalSteps then [DrumNote(KICK, (totalSteps - 1) as real * FILL_STEP, FILL_STEP, 100)] else [])
  {
    if j > 2 {
      FillKicks(totalSteps, tomDraw, velocityDraw, j - 1);
    } else {
      assert FillNotes(FillKick, totalSteps, tomDraw, velocityDraw, 1) == [DrumNote(KICK, 0.0, FILL_STEP, 100)];
    }
  }

  /** The three tom lists together hold one note per even step, so a fill
      of at least one step always has a tom. */
  lemma {:induction false} FillTomCount(totalSteps: int, tomDraw: int -> real, velocityDraw: int -> real, j: nat)
    requires IsRandom(tomDraw) && IsRandom(velocityDraw)
    ensures |FillNotes(FillTom1, totalSteps, tomDraw, velocityDraw, j)| +
            |FillNotes(FillTom2, totalSteps, tomDraw, velocityDraw, j)| +
            |FillNotes(FillTom3, totalSteps, tomDraw, velocityDraw, j)| == (j + 1) / 2
  {
    if j > 0 {
      FillTomCount(totalSteps, tomDraw, velocityDraw, j - 1);
      OneTomPerEvenStep(totalSteps, tomDraw, velocityDraw, j - 1);
      assert (j + 1) / 2 == j / 2 + (if (j - 1) % 2 == 0 then 1 else 0);
    }
  }

  /** The snare list holds one note per third step. */
  lemma {:induction false} FillSnareCount(totalSteps: int, tomDraw: int -> real, velocityDraw: int -> real, j: nat)
    requires IsRandom(tomDraw) && IsRandom(velocityDraw)
    ensures |FillNotes(FillSnare, totalSteps, tomDraw, velocityDraw, j)| == (j + 2) / 3
  {
    if j > 0 {
      FillSnareCount(totalSteps, tomDraw, velocityDraw, j - 1);
      assert (j + 2) / 3 == (j + 1) / 3 + (if (j - 1) % 3 == 0 then 1 else 0);
    }
  }
}
