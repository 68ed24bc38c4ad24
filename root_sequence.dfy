// midi-framework.js, `MidiNote` and `MidiSequence` (lines 137-309). A note's
// transforms return a modified clone; a sequence changes its `notes` array
// in place.
module RootSequence {
  import opened JsSupport

  /** MidiNote. `clone()` is the identity on values; `toJSON` and
      `fromJSON` copy the five fields. */
  datatype MidiNote = MidiNote(pitch: int, startTime: real, duration: real, velocity: int, channel: int)
  {
    /** transpose: the pitch moved by `semitones` and clamped into 0..127. */
    function Transpose(semitones: int): (r: MidiNote)
      ensures 0 <= r.pitch <= 127
      ensures 0 <= pitch + semitones <= 127 ==> r.pitch == pitch + semitones
      ensures pitch + semitones < 0 ==> r.pitch == 0
      ensures pitch + semitones > 127 ==> r.pitch == 127
      ensures r == this.(pitch := r.pitch)
    {
      this.(pitch := Clamp(pitch + semitones, 0, 127))
    }

    /** setDuration: negative durations become 0. */
    function SetDuration(newDuration: real): (r: MidiNote)
      ensures r.duration >= 0.0
      ensures newDuration >= 0.0 ==> r.duration == newDuration
      ensures newDuration < 0.0 ==> r.duration == 0.0
      ensures r == this.(duration := r.duration)
    {
      this.(duration := if newDuration < 0.0 then 0.0 else newDuration)
    }

    /** setVelocity: clamped into 0..127. */
    function SetVelocity(newVelocity: int): (r: MidiNote)
      ensures 0 <= r.velocity <= 127
      ensures 0 <= newVelocity <= 127 ==> r.velocity == newVelocity
      ensures r == this.(velocity := r.velocity)
    {
      this.(velocity := Clamp(newVelocity, 0, 127))
    }

    function EndTime(): real {
      startTime + duration
    }
  }

  /** A transposition that stays inside the MIDI range is undone by the
      opposite one; one that leaves it loses the distance clipped off. */
  lemma TransposeInverse(n: MidiNote, semitones: int)
    requires 0 <= n.pitch <= 127 && 0 <= n.pitch + semitones <= 127
    ensures n.Transpose(semitones).Transpose(-semitones) == n
  {
  }

  /** Clamping twice is clamping once. */
  lemma SetVelocityIdempotent(n: MidiNote, v: int)
    ensures n.SetVelocity(v).SetVelocity(n.SetVelocity(v).velocity) == n.SetVelocity(v)
  {
  }

  datatype TimeSignature = TimeSignature(numerator: int, denominator: int)

  /** The plain object `toJSON` produces, and `fromJSON` reads. */
  datatype SequenceData = SequenceData(id: string, name: string, timeSignature: TimeSignature, tempo: int, key: string, notes: seq<MidiNote>)

  /** The constructor's `options`; an absent field is None. */
  datatype SequenceOptions = SequenceOptions(
    timeSignature: Option<TimeSignature>, tempo: Option<int>, key: Option<string>, name: Option<string>, id: Option<string>)

  const DefaultTimeSignature := TimeSignature(4, 4)

  /** `new MidiSequence(options)`: empty notes and defaults for the falsy
      options; `generatedId` stands for `_generateId()`. */
  function NewSequence(options: SequenceOptions, generatedId: string): (d: SequenceData)
    ensures d.notes == []
    ensures d.tempo == IntOr(options.tempo, 120) && d.key == StringOr(options.key, "C major")
    ensures d.name == StringOr(options.name, "Untitled Sequence") && d.id == StringOr(options.id, generatedId)
    ensures d.timeSignature == options.timeSignature.GetOr(DefaultTimeSignature)
  {
    SequenceData(
      StringOr(options.id, generatedId),
      StringOr(options.name, "Untitled Sequence"),
      options.timeSignature.GetOr(DefaultTimeSignature),
      IntOr(options.tempo, 120),
      StringOr(options.key, "C major"),
      [])
  }

  /** MidiSequence.fromJSON: the metadata goes through the constructor's
      defaults and the notes are copied. */
  function FromJson(json: SequenceData, generatedId: string): SequenceData {
    NewSequence(SequenceOptions(Some(json.timeSignature), Some(json.tempo), Some(json.key), Some(json.name), Some(json.id)), generatedId)
      .(notes := json.notes)
  }

  /** Truthy metadata survives `fromJSON(toJSON(s))` unchanged; each falsy field
      comes back as its default. */
  predicate TruthyMetadata(d: SequenceData) {
    d.id != "" && d.name != "" && d.key != "" && d.tempo != 0
  }

  lemma FromJsonRoundTrip(d: SequenceData, generatedId: string)
    ensures TruthyMetadata(d) ==> FromJson(d, generatedId) == d
    ensures FromJson(d, generatedId).notes == d.notes && FromJson(d, generatedId).timeSignature == d.timeSignature
    ensures d.tempo == 0 ==> FromJson(d, generatedId).tempo == 120
    ensures d.id == "" ==> FromJson(d, generatedId).id == generatedId
  {
  }

  /** clone: a new sequence (with a new id) carrying the metadata through
      the constructor's defaults and a copy of every note. */
  function CloneData(d: SequenceData, generatedId: string): SequenceData {
    NewSequence(SequenceOptions(Some(d.timeSignature), Some(d.tempo), Some(d.key), Some(d.name), None), generatedId)
      .(notes := d.notes)
  }

  /** transpose: a clone whose notes are each transposed. */
  function TransposedData(d: SequenceData, semitones: int, generatedId: string): SequenceData {
    CloneData(d, generatedId).(notes := seq(|d.notes|, i requires 0 <= i < |d.notes| => d.notes[i].Transpose(semitones)))
  }

  /** Transposing keeps the number of notes and their timing, puts every
      pitch in range, and leaves the original untouched. */
  lemma TransposedContract(d: SequenceData, semitones: int, generatedId: string)
    ensures var t := TransposedData(d, semitones, generatedId);
            |t.notes| == |d.notes| && t.id == StringOr(None, generatedId) &&
            forall i :: 0 <= i < |d.notes| ==>
              0 <= t.notes[i].pitch <= 127 && t.notes[i].startTime == d.notes[i].startTime &&
              t.notes[i].duration == d.notes[i].duration &&
              (0 <= d.notes[i].pitch + semitones <= 127 ==> t.notes[i].pitch == d.notes[i].pitch + semitones)
  {
  }

  // ---------------------------------------------------------------------
  // Queries

  /** Math.max over the end times of a non-empty list. */
  function MaxEnd(ns: seq<MidiNote>): (m: real)
    requires |ns| > 0
    ensures forall i :: 0 <= i < |ns| ==> ns[i].EndTime() <= m
    ensures exists i :: 0 <= i < |ns| && ns[i].EndTime() == m
  {
    if |ns| == 1 then ns[0].EndTime()
    else
      var rest := MaxEnd(ns[1..]);
      assert forall i :: 1 <= i < |ns| ==> ns[i] == ns[1..][i - 1];
      MaxReal(ns[0].EndTime(), rest)
  }

  /** getDuration: 0 for no notes, else the latest end time. */
  function Duration(ns: seq<MidiNote>): (m: real)
    ensures |ns| == 0 ==> m == 0.0
    ensures |ns| > 0 ==> (forall i :: 0 <= i < |ns| ==> ns[i].EndTime() <= m) &&
                         exists i :: 0 <= i < |ns| && ns[i].EndTime() == m
  {
    if |ns| == 0 then 0.0 else MaxEnd(ns)
  }

  /** The half-open interval of `n` meets (startTime, endTime). */
  predicate Overlaps(n: MidiNote, startTime: real, endTime: real) {
    n.startTime < endTime && n.EndTime() > startTime
  }

  /** getNotesInRange. */
  function NotesInRange(ns: seq<MidiNote>, startTime: real, endTime: real): seq<MidiNote> {
    if |ns| == 0 then []
    else if Overlaps(ns[0], startTime, endTime) then [ns[0]] + NotesInRange(ns[1..], startTime, endTime)
    else NotesInRange(ns[1..], startTime, endTime)
  }

  /** The range keeps exactly the overlapping notes, each as often as it
      occurs. */
  lemma {:induction false} NotesInRangeContract(ns: seq<MidiNote>, startTime: real, endTime: real)
    ensures |NotesInRange(ns, startTime, endTime)| <= |ns|
    ensures forall n :: n in NotesInRange(ns, startTime, endTime) <==> n in ns && Overlaps(n, startTime, endTime)
    ensures forall n :: multiset(NotesInRange(ns, startTime, endTime))[n] == if Overlaps(n, startTime, endTime) then multiset(ns)[n] else 0
  {
    if |ns| > 0 {
      NotesInRangeContract(ns[1..], startTime, endTime);
      assert ns == [ns[0]] + ns[1..];
    }
  }

  // ---------------------------------------------------------------------
  // The sequence object

  class MidiSequence {
    var id: string
    var name: string
    var timeSignature: TimeSignature
    var tempo: int
    var key: string
    var notes: seq<MidiNote>

    /** toJSON. */
    function Data(): SequenceData
      reads this
    {
      SequenceData(id, name, timeSignature, tempo, key, notes)
    }

    constructor(options: SequenceOptions, generatedId: string)
      ensures Data() == NewSequence(options, generatedId)
    {
      var d := NewSequence(options, generatedId);
      id, name, timeSignature, tempo, key, notes := d.id, d.name, d.timeSignature, d.tempo, d.key, [];
    }

    /** addNote: appends one note. */
    method AddNote(note: MidiNote)
      modifies this
      ensures Data() == old(Data()).(notes := old(notes) + [note])
    {
      notes := notes + [note];
    }

    /** addNotes: `addNote` on each element, in order. */
    method AddNotes(ns: seq<MidiNote>)
      modifies this
      ensures Data() == old(Data()).(notes := old(notes) + ns)
    {
      var i := 0;
      while i < |ns|
        invariant 0 <= i <= |ns|
        invariant Data() == old(Data()).(notes := old(notes) + ns[..i])
      {
        AddNote(ns[i]);
        assert ns[..i + 1] == ns[..i] + [ns[i]];
        i := i + 1;
      }
      assert ns[..i] == ns;
    }

    /** removeNote: an index inside the list removes exactly that note and
        keeps the others in order; any other index changes nothing. */
    method RemoveNote(index: int)
      modifies this
      ensures 0 <= index < |old(notes)| ==>
                Data() == old(Data()).(notes := old(notes)[..index] + old(notes)[index + 1..])
      ensures !(0 <= index < |old(notes)|) ==> Data() == old(Data())
      ensures 0 <= index < |old(notes)| ==>
                |notes| == |old(notes)| - 1 &&
                (forall i :: 0 <= i < index ==> notes[i] == old(notes)[i]) &&
                (forall i :: index <= i < |notes| ==> notes[i] == old(notes)[i + 1])
    {
      if 0 <= index < |notes| {
        notes := notes[..index] + notes[index + 1..];
      }
    }

    /** clear: no notes, metadata kept. */
    method Clear()
      modifies this
      ensures Data() == old(Data()).(notes := [])
    {
      notes := [];
    }

    /** getDuration. */
    function GetDuration(): (m: real)
      reads this
      ensures |notes| == 0 ==> m == 0.0
      ensures forall i :: 0 <= i < |notes| ==> notes[i].EndTime() <= m
    {
      Duration(notes)
    }

    /** getNotesInRange. */
    function GetNotesInRange(startTime: real, endTime: real): seq<MidiNote>
      reads this
    {
      NotesInRange(notes, startTime, endTime)
    }

    /** clone: a fresh object with a new id. */
    method Clone(generatedId: string) returns (r: MidiSequence)
      ensures fresh(r) && r.Data() == CloneData(Data(), generatedId)
    {
      var d := Data();
      r := new MidiSequence(SequenceOptions(Some(d.timeSignature), Some(d.tempo), Some(d.key), Some(d.name), None), generatedId);
      r.notes := d.notes;
    }

    /** transpose: a fresh clone with every note transposed; the receiver
        keeps its notes. */
    method Transpose(semitones: int, generatedId: string) returns (r: MidiSequence)
      ensures fresh(r) && r.Data() == TransposedData(Data(), semitones, generatedId)
    {
      r := Clone(generatedId);
      r.notes := seq(|notes|, i requires 0 <= i < |notes| reads this => notes[i].Transpose(semitones));
    }
  }
}
