// src/core/midi-framework.js, `MidiNote` and `MidiSequence` (lines
// 302-502). A note is an object whose transforms change its fields in place
// and return it; a sequence keeps an array of notes that its methods push
// to, splice, sort and rewrite note by note. Beat times are reals.
module CoreFrameworkSequence {
  import opened JsSupport
  import opened Sorting
  import CoreFrameworkTheory

  /** The five fields of a note, as `toJSON` copies them. */
  datatype NoteData = NoteData(pitch: int, startTime: real, duration: real, velocity: int, channel: int)

  /** A note object read by `fromJSON` or `addNote`: velocity and channel go
      through the constructor's defaults, so an absent one (None) is 80,
      respectively 0. */
  datatype NoteJson = NoteJson(pitch: int, startTime: real, duration: real, velocity: Option<int>, channel: Option<int>)

  /** `new MidiNote(pitch, startTime, duration, velocity = 80, channel = 0)`. */
  function NoteOf(json: NoteJson): (d: NoteData)
    ensures d.pitch == json.pitch && d.startTime == json.startTime && d.duration == json.duration
    ensures d.velocity == json.velocity.GetOr(80) && d.channel == json.channel.GetOr(0)
  {
    NoteData(json.pitch, json.startTime, json.duration, json.velocity.GetOr(80), json.channel.GetOr(0))
  }

  /** `toJSON()`: every field present. */
  function JsonOf(d: NoteData): (j: NoteJson)
    ensures NoteOf(j) == d
  {
    NoteJson(d.pitch, d.startTime, d.duration, Some(d.velocity), Some(d.channel))
  }

  /** Reading back a note's JSON gives the same JSON, so the pair is a
      bijection between notes and JSON with both optional fields present. */
  lemma {:induction false} NoteJsonRoundTrip(j: NoteJson)
    requires j.velocity.Some? && j.channel.Some?
    ensures JsonOf(NoteOf(j)) == j
  {
  }

  function EndOf(d: NoteData): real {
    d.startTime + d.duration
  }

  class MidiNote {
    var pitch: int
    var startTime: real
    var duration: real
    var velocity: int
    var channel: int

    function Value(): NoteData
      reads this
    {
      NoteData(pitch, startTime, duration, velocity, channel)
    }

    constructor (json: NoteJson)
      ensures Value() == NoteOf(json)
    {
      pitch := json.pitch;
      startTime := json.startTime;
      duration := json.duration;
      velocity := json.velocity.GetOr(80);
      channel := json.channel.GetOr(0);
    }

    /** `getNoteName()`: the theory module's name of the pitch, which reads
        back as the pitch for every pitch from 12 on. */
    function GetNoteName(): (name: string)
      reads this
      ensures pitch >= 12 ==> CoreFrameworkTheory.GetNoteNumber(name) == Ok(pitch)
    {
      if pitch >= 12 then
        (CoreFrameworkTheory.NoteNameRoundTrip(pitch); CoreFrameworkTheory.GetNoteName(pitch))
      else CoreFrameworkTheory.GetNoteName(pitch)
    }

    /** `getEndTime()`. */
    function GetEndTime(): (t: real)
      reads this
      ensures t == EndOf(Value())
    {
      startTime + duration
    }

    /** `clone()`: a new object with the same fields. */
    method Clone() returns (c: MidiNote)
      ensures fresh(c) && c.Value() == Value()
    {
      c := new MidiNote(JsonOf(Value()));
    }

    /** `transpose(semitones)`: the pitch moves, unclamped, in place. */
    method Transpose(semitones: int) returns (r: MidiNote)
      modifies this
      ensures r == this && Value() == TransposedNote(old(Value()), semitones)
    {
      pitch := pitch + semitones;
      r := this;
    }

    /** `move(timeOffset)`: the start moves, and so does the end. */
    method Move(timeOffset: real) returns (r: MidiNote)
      modifies this
      ensures r == this && Value() == old(Value()).(startTime := old(startTime) + timeOffset)
      ensures GetEndTime() == old(GetEndTime()) + timeOffset
    {
      startTime := startTime + timeOffset;
      r := this;
    }

    /** `resize(newDuration)`: any duration, negative ones included. */
    method Resize(newDuration: real) returns (r: MidiNote)
      modifies this
      ensures r == this && Value() == old(Value()).(duration := newDuration)
      ensures GetEndTime() == startTime + newDuration
    {
      duration := newDuration;
      r := this;
    }

    /** `toJSON()`, which `fromJSON` reads back as the same note. */
    function ToJSON(): (j: NoteJson)
      reads this
      ensures NoteOf(j) == Value() && j.velocity.Some? && j.channel.Some?
    {
      JsonOf(Value())
    }
  }

  /** `MidiNote.fromJSON(json)`. */
  method NoteFromJSON(json: NoteJson) returns (n: MidiNote)
    ensures fresh(n) && n.Value() == NoteOf(json)
  {
    n := new MidiNote(json);
  }

  /** A note transposed by `semitones`. */
  function TransposedNote(d: NoteData, semitones: int): (t: NoteData)
    ensures t.pitch - d.pitch == semitones
    ensures t.(pitch := d.pitch) == d
  {
    d.(pitch := d.pitch + semitones)
  }

  // ---------------------------------------------------------------------
  // Sequences

  datatype TimeSignature = TimeSignature(numerator: int, denominator: int)

  const DefaultTimeSignature := TimeSignature(4, 4)

  /** The constructor's `options`; an absent field is None. */
  datatype SequenceOptions = SequenceOptions(
    id: Option<string>, name: Option<string>, timeSignature: Option<TimeSignature>, tempo: Option<int>, key: Option<string>)

  /** The state of a sequence, which is also its `toJSON()` with the notes
      as NoteData (their JSON is JsonOf of each). */
  datatype SequenceData = SequenceData(id: string, name: string, timeSignature: TimeSignature, tempo: int, key: string, notes: seq<NoteData>)

  /** `new MidiSequence(options)`: no notes, and the defaults for the
      falsy options; `generatedId` stands for the id built from the clock
      and a random number. */
  function NewSequence(options: SequenceOptions, generatedId: string): (d: SequenceData)
    ensures d.notes == []
    ensures d.id == StringOr(options.id, generatedId) && d.name == StringOr(options.name, "Untitled Sequence")
    ensures d.timeSignature == options.timeSignature.GetOr(DefaultTimeSignature)
    ensures d.tempo == IntOr(options.tempo, 120) && d.key == StringOr(options.key, "C major")
  {
    SequenceData(StringOr(options.id, generatedId), StringOr(options.name, "Untitled Sequence"),
                 options.timeSignature.GetOr(DefaultTimeSignature), IntOr(options.tempo, 120),
                 StringOr(options.key, "C major"), [])
  }

  /** The argument of `addNote`: a MidiNote is pushed as it is, any other
      object is read through the constructor. */
  datatype NoteArg = Instance(note: NoteData) | Plain(json: NoteJson)

  function ArgNote(a: NoteArg): NoteData {
    match a
    case Instance(n) => n
    case Plain(j) => NoteOf(j)
  }

  /** The notes `addNotes` pushes, in order. */
  function ArgNotes(args: seq<NoteArg>): (ns: seq<NoteData>)
    ensures |ns| == |args| && forall i :: 0 <= i < |args| ==> ns[i] == ArgNote(args[i])
  {
    if |args| == 0 then [] else [ArgNote(args[0])] + ArgNotes(args[1..])
  }

  /** The argument of `addNotes`, and the `notes` field of a JSON sequence:
      an array, or something else, which adds nothing. */
  datatype NoteArgs = ArgArray(items: seq<NoteArg>) | NotAnArray

  /** The largest end time of a non-empty list of notes. */
  function MaxEnd(ns: seq<NoteData>): (m: real)
    requires |ns| > 0
    ensures forall i :: 0 <= i < |ns| ==> EndOf(ns[i]) <= m
    ensures exists i :: 0 <= i < |ns| && EndOf(ns[i]) == m
  {
    if |ns| == 1 then EndOf(ns[0])
    else
      var rest := MaxEnd(ns[1..]);
      assert forall i :: 1 <= i < |ns| ==> ns[i] == ns[1..][i - 1];
      MaxReal(EndOf(ns[0]), rest)
  }

  /** `getDuration()`: 0 without notes, else the latest end. */
  function Duration(ns: seq<NoteData>): (m: real)
    ensures |ns| == 0 ==> m == 0.0
    ensures |ns| > 0 ==> (forall i :: 0 <= i < |ns| ==> EndOf(ns[i]) <= m) && exists i :: 0 <= i < |ns| && EndOf(ns[i]) == m
  {
    if |ns| == 0 then 0.0 else MaxEnd(ns)
  }

  /** `notes.filter(note => note.channel === channel)`. */
  function ChannelNotes(ns: seq<NoteData>, channel: int): (r: seq<NoteData>)
    ensures |r| <= |ns|
    ensures forall i :: 0 <= i < |r| ==> r[i].channel == channel
  {
    if |ns| == 0 then []
    else (if ns[0].channel == channel then [ns[0]] else []) + ChannelNotes(ns[1..], channel)
  }

  /** The filter keeps exactly the notes of that channel, each as often as
      it occurs. */
  lemma {:induction false} ChannelNotesCounts(ns: seq<NoteData>, channel: int)
    ensures forall n :: multiset(ChannelNotes(ns, channel))[n] == if n.channel == channel then multiset(ns)[n] else 0
  {
    if |ns| > 0 {
      ChannelNotesCounts(ns[1..], channel);
      assert ns == [ns[0]] + ns[1..];
    }
  }

  /** The start time, the sort key. */
  function StartKey(d: NoteData): real {
    d.startTime
  }

  /** A note snapped to a grid of `division` beats. */
  function QuantizeNote(d: NoteData, division: real): NoteData
    requires division != 0.0
  {
    d.(startTime := JsRound(d.startTime / division) as real * division,
       duration := MaxReal(division, JsRound(d.duration / division) as real * division))
  }

  /** Every note quantized, in order. */
  function QuantizeAll(ns: seq<NoteData>, division: real): (r: seq<NoteData>)
    requires division != 0.0
    ensures |r| == |ns| && forall i :: 0 <= i < |ns| ==> r[i] == QuantizeNote(ns[i], division)
  {
    if |ns| == 0 then [] else [QuantizeNote(ns[0], division)] + QuantizeAll(ns[1..], division)
  }

  /** On a positive grid, a quantized note starts on the grid line nearest
      its old start and lasts a whole number of steps, at least one; pitch,
      velocity and channel stay. */
  lemma {:induction false} QuantizeNoteContract(d: NoteData, division: real)
    requires division > 0.0
    ensures var q := QuantizeNote(d, division);
      -division / 2.0 < q.startTime - d.startTime <= division / 2.0 &&
      q.duration >= division &&
      q.pitch == d.pitch && q.velocity == d.velocity && q.channel == d.channel
  {
    var r := JsRound(d.startTime / division) as real;
    RoundLower(d.startTime, division, r);
    RoundUpper(d.startTime, division, r);
  }

  /** Quantizing twice on the same positive grid is quantizing once. */
  lemma {:induction false} QuantizeNoteIdempotent(d: NoteData, division: real)
    requires division > 0.0
    ensures QuantizeNote(QuantizeNote(d, division), division) == QuantizeNote(d, division)
  {
    QuantizedStartStays(d, division);
    QuantizedDurationStays(d, division);
  }

  lemma {:induction false} QuantizedStartStays(d: NoteData, division: real)
    requires division > 0.0
    ensures var q := QuantizeNote(d, division);
      JsRound(q.startTime / division) as real * division == q.startTime
  {
    var r := JsRound(d.startTime / division);
    assert QuantizeNote(d, division).startTime == r as real * division;
    RoundOnGrid(r, division);
  }

  lemma {:induction false} QuantizedDurationStays(d: NoteData, division: real)
    requires division > 0.0
    ensures var q := QuantizeNote(d, division);
      MaxReal(division, JsRound(q.duration / division) as real * division) == q.duration
  {
    var q := QuantizeNote(d, division);
    var k := JsRound(d.duration / division);
    var steps := if k >= 1 then k else 1;
    if k < 1 {
      MulMonotonic(k as real, 1.0, division);
    } else {
      MulMonotonic(1.0, k as real, division);
    }
    assert q.duration == steps as real * division;
    RoundOnGrid(steps, division);
    MulMonotonic(1.0, steps as real, division);
  }

  /** Every note transposed, in order. */
  function TransposeAll(ns: seq<NoteData>, semitones: int): (r: seq<NoteData>)
    ensures |r| == |ns| && forall i :: 0 <= i < |ns| ==> r[i] == TransposedNote(ns[i], semitones)
  {
    if |ns| == 0 then [] else [TransposedNote(ns[0], semitones)] + TransposeAll(ns[1..], semitones)
  }

  /** Transposition is undone by the opposite one (no clamping), and never
      changes the duration of the sequence. */
  lemma {:induction false} TransposeAllInverse(ns: seq<NoteData>, semitones: int)
    ensures TransposeAll(TransposeAll(ns, semitones), -semitones) == ns
    ensures Duration(TransposeAll(ns, semitones)) == Duration(ns)
  {
    var t := TransposeAll(ns, semitones);
    assert forall i :: 0 <= i < |ns| ==> EndOf(t[i]) == EndOf(ns[i]);
    if |ns| > 0 {
      DurationUnique(t, Duration(ns));
    }
  }

  /** A bound that is attained is the maximum. */
  lemma {:induction false} DurationUnique(ns: seq<NoteData>, m: real)
    requires |ns| > 0
    requires forall i :: 0 <= i < |ns| ==> EndOf(ns[i]) <= m
    requires exists i :: 0 <= i < |ns| && EndOf(ns[i]) == m
    ensures Duration(ns) == m
  {
    var i :| 0 <= i < |ns| && EndOf(ns[i]) == m;
    var j :| 0 <= j < |ns| && EndOf(ns[j]) == Duration(ns);
    assert EndOf(ns[j]) <= m && EndOf(ns[i]) <= Duration(ns);
  }

  /** `MidiSequence.fromJSON(json)` on a parsed object: the metadata through
      the constructor's defaults, then each note of an array through
      `MidiNote.fromJSON`. */
  datatype SequenceJson = SequenceJson(
    id: Option<string>, name: Option<string>, timeSignature: Option<TimeSignature>, tempo: Option<int>, key: Option<string>,
    notes: Option<seq<NoteJson>>)

  function FromJson(json: SequenceJson, generatedId: string): (d: SequenceData)
    ensures json.notes.None? ==> d.notes == []
    ensures json.notes.Some? ==> (|d.notes| == |json.notes.value| &&
      forall i :: 0 <= i < |d.notes| ==> d.notes[i] == NoteOf(json.notes.value[i]))
  {
    var d := NewSequence(SequenceOptions(json.id, json.name, json.timeSignature, json.tempo, json.key), generatedId);
    match json.notes
    case None => d
    case Some(ns) => d.(notes := NotesOf(ns))
  }

  function NotesOf(js: seq<NoteJson>): (ns: seq<NoteData>)
    ensures |ns| == |js| && forall i :: 0 <= i < |js| ==> ns[i] == NoteOf(js[i])
  {
    if |js| == 0 then [] else [NoteOf(js[0])] + NotesOf(js[1..])
  }

  /** `toJSON()`. */
  function ToJson(d: SequenceData): (j: SequenceJson)
    ensures j.notes.Some? && |j.notes.value| == |d.notes|
    ensures forall i :: 0 <= i < |d.notes| ==> j.notes.value[i] == JsonOf(d.notes[i])
  {
    SequenceJson(Some(d.id), Some(d.name), Some(d.timeSignature), Some(d.tempo), Some(d.key), Some(JsonNotes(d.notes)))
  }

  function JsonNotes(ns: seq<NoteData>): (js: seq<NoteJson>)
    ensures |js| == |ns| && forall i :: 0 <= i < |ns| ==> js[i] == JsonOf(ns[i])
  {
    if |ns| == 0 then [] else [JsonOf(ns[0])] + JsonNotes(ns[1..])
  }

  /** Metadata that the constructor keeps: no field is falsy. */
  predicate TruthyMetadata(d: SequenceData) {
    d.id != "" && d.name != "" && d.tempo != 0 && d.key != ""
  }

  /** `fromJSON(toJSON())` gives back the notes always, and the whole
      sequence when its metadata is truthy; a falsy field comes back as
      its default. */
  lemma {:induction false} JsonRoundTrip(d: SequenceData, generatedId: string)
    ensures FromJson(ToJson(d), generatedId).notes == d.notes
    ensures TruthyMetadata(d) ==> FromJson(ToJson(d), generatedId) == d
    ensures d.tempo == 0 ==> FromJson(ToJson(d), generatedId).tempo == 120
    ensures d.name == "" ==> FromJson(ToJson(d), generatedId).name == "Untitled Sequence"
  {
    var r := FromJson(ToJson(d), generatedId);
    assert |r.notes| == |d.notes|;
    assert forall i :: 0 <= i < |d.notes| ==> r.notes[i] == d.notes[i];
  }

  class MidiSequence {
    var id: string
    var name: string
    var notes: seq<NoteData>
    var timeSignature: TimeSignature
    var tempo: int
    var key: string

    function Data(): SequenceData
      reads this
    {
      SequenceData(id, name, timeSignature, tempo, key, notes)
    }

    constructor (options: SequenceOptions, generatedId: string)
      ensures Data() == NewSequence(options, generatedId)
    {
      var d := NewSequence(options, generatedId);
      id, name, notes := d.id, d.name, [];
      timeSignature, tempo, key := d.timeSignature, d.tempo, d.key;
    }

    /** `addNote(note)`. */
    method AddNote(note: NoteArg)
      modifies this
      ensures Data() == old(Data()).(notes := old(notes) + [ArgNote(note)])
    {
      notes := notes + [ArgNote(note)];
    }

    /** `addNotes(notes)`: each element in turn; a non-array changes
        nothing. */
    method AddNotes(args: NoteArgs)
      modifies this
      ensures args.ArgArray? ==> Data() == old(Data()).(notes := old(notes) + ArgNotes(args.items))
      ensures args.NotAnArray? ==> Data() == old(Data())
    {
      if args.ArgArray? {
        var items := args.items;
        var i := 0;
        while i < |items|
          invariant 0 <= i <= |items|
          invariant Data() == old(Data()).(notes := old(notes) + ArgNotes(items[..i]))
        {
          assert items[..i + 1] == items[..i] + [items[i]];
          ArgNotesSnoc(items[..i], items[i]);
          AddNote(items[i]);
          i := i + 1;
        }
        assert items[..i] == items;
      }
    }

    /** `removeNote(index)`: an index outside the array changes nothing;
        otherwise exactly that note goes and the others keep their order. */
    method RemoveNote(index: int)
      modifies this
      ensures 0 <= index < |old(notes)| ==>
        Data() == old(Data()).(notes := old(notes)[..index] + old(notes)[index + 1..])
      ensures !(0 <= index < |old(notes)|) ==> Data() == old(Data())
    {
      if 0 <= index < |notes| {
        notes := notes[..index] + notes[index + 1..];
      }
    }

    /** `clear()`. */
    method Clear()
      modifies this
      ensures Data() == old(Data()).(notes := [])
    {
      notes := [];
    }

    /** `getNote(index)`: undefined (None) outside the array. */
    function GetNote(index: int): (r: Option<NoteData>)
      reads this
      ensures r.Some? <==> 0 <= index < |notes|
      ensures r.Some? ==> r.value == notes[index]
    {
      if 0 <= index < |notes| then Some(notes[index]) else None
    }

    /** `getNotesByChannel(channel)`. */
    function GetNotesByChannel(channel: int): (r: seq<NoteData>)
      reads this
      ensures forall i :: 0 <= i < |r| ==> r[i].channel == channel
      ensures forall n :: multiset(r)[n] == if n.channel == channel then multiset(notes)[n] else 0
    {
      ChannelNotesCounts(notes, channel);
      ChannelNotes(notes, channel)
    }

    /** `getDuration()`. */
    function GetDuration(): (m: real)
      reads this
      ensures |notes| == 0 ==> m == 0.0
      ensures |notes| > 0 ==> ((forall i :: 0 <= i < |notes| ==> EndOf(notes[i]) <= m) &&
        exists i :: 0 <= i < |notes| && EndOf(notes[i]) == m)
    {
      Duration(notes)
    }

    /** `sortNotes()`: a stable sort by start time, so the notes end up
        ordered by start and are a permutation of the old ones. */
    method SortNotes()
      modifies this
      ensures Data() == old(Data()).(notes := SortBy(old(notes), StartKey))
      ensures SortedBy(notes, StartKey) && multiset(notes) == multiset(old(notes))
    {
      notes := SortBy(notes, StartKey);
    }

    /** `quantize(division = 0.25)`: each note in turn. A zero division
        makes every time NaN and is excluded. */
    method Quantize(division: Option<real>)
      requires division.GetOr(0.25) != 0.0
      modifies this
      ensures Data() == old(Data()).(notes := QuantizeAll(old(notes), division.GetOr(0.25)))
    {
      var div := division.GetOr(0.25);
      var i := 0;
      while i < |notes|
        invariant 0 <= i <= |notes| == |old(notes)|
        invariant forall k :: 0 <= k < i ==> notes[k] == QuantizeNote(old(notes)[k], div)
        invariant forall k :: i <= k < |notes| ==> notes[k] == old(notes)[k]
        invariant Data() == old(Data()).(notes := notes)
      {
        notes := notes[i := QuantizeNote(notes[i], div)];
        i := i + 1;
      }
      assert notes == QuantizeAll(old(notes), div);
    }

    /** `transpose(semitones)`: each note transposed in place. */
    method Transpose(semitones: int)
      modifies this
      ensures Data() == old(Data()).(notes := TransposeAll(old(notes), semitones))
    {
      var i := 0;
      while i < |notes|
        invariant 0 <= i <= |notes| == |old(notes)|
        invariant forall k :: 0 <= k < i ==> notes[k] == TransposedNote(old(notes)[k], semitones)
        invariant forall k :: i <= k < |notes| ==> notes[k] == old(notes)[k]
        invariant Data() == old(Data()).(notes := notes)
      {
        notes := notes[i := TransposedNote(notes[i], semitones)];
        i := i + 1;
      }
      assert notes == TransposeAll(old(notes), semitones);
    }

    /** `toJSON()`, which `fromJSON` reads back (see JsonRoundTrip). */
    function ToJSON(): (j: SequenceJson)
      reads this
      ensures FromJson(j, id).notes == notes
      ensures TruthyMetadata(Data()) ==> FromJson(j, id) == Data()
    {
      JsonRoundTrip(Data(), id);
      ToJson(Data())
    }
  }

  lemma {:induction false} ArgNotesSnoc(args: seq<NoteArg>, a: NoteArg)
    ensures ArgNotes(args + [a]) == ArgNotes(args) + [ArgNote(a)]
  {
    var l := ArgNotes(args + [a]);
    assert |l| == |args| + 1;
    assert forall i :: 0 <= i < |args| ==> (args + [a])[i] == args[i];
  }

  /** `MidiSequence.fromJSON(json)` for a parsed object. */
  method SequenceFromJSON(json: SequenceJson, generatedId: string) returns (s: MidiSequence)
    ensures fresh(s) && s.Data() == FromJson(json, generatedId)
  {
    s := new MidiSequence(SequenceOptions(json.id, json.name, json.timeSignature, json.tempo, json.key), generatedId);
    if json.notes.Some? {
      var js := json.notes.value;
      var i := 0;
      while i < |js|
        invariant 0 <= i <= |js|
        invariant s.Data() == NewSequence(SequenceOptions(json.id, json.name, json.timeSignature, json.tempo, json.key), generatedId)
                               .(notes := NotesOf(js[..i]))
        modifies s
      {
        var n := NoteFromJSON(js[i]);
        assert js[..i + 1] == js[..i] + [js[i]];
        NotesOfSnoc(js[..i], js[i]);
        s.AddNote(Instance(n.Value()));
        i := i + 1;
      }
      assert js[..i] == js;
    }
  }

  lemma {:induction false} NotesOfSnoc(js: seq<NoteJson>, j: NoteJson)
    ensures NotesOf(js + [j]) == NotesOf(js) + [NoteOf(j)]
  {
    var l := NotesOf(js + [j]);
    assert |l| == |js| + 1;
    assert forall i :: 0 <= i < |js| ==> (js + [j])[i] == js[i];
  }
}
