// The sequence model of src/server/models/sequence.js: a `MidiNote` record,
// and a `MidiSequence` whose `notes` array is changed in place by `addNote`,
// `addNotes` and `clear`, with `toJSON` and the object-input path of the
// static `fromJSON`. The array may hold `MidiNote` objects or plain note
// objects, as `addNote` pushes whatever it is given. Generated ids
// (`seq_${Date.now()}…`) are a parameter.
module ServerSequence {
  import opened JsSupport

  /** `new MidiNote(pitch, startTime, duration, velocity, channel)`. */
  datatype MidiNote = MidiNote(pitch: int, startTime: real, duration: real, velocity: int, channel: int)

  /** A plain note object, as `toJSON` writes it and `fromJSON` reads it;
      `velocity` and `channel` may be absent. */
  datatype NoteJson = NoteJson(pitch: int, startTime: real, duration: real, velocity: Option<int>, channel: Option<int>)

  /** An element of `notes`: a `MidiNote` (which has `toJSON`) or a plain
      object (which has not). */
  datatype Item = NoteObject(note: MidiNote) | PlainNote(json: NoteJson)

  datatype TimeSignature = TimeSignature(numerator: int, denominator: int)

  const DefaultTimeSignature := TimeSignature(4, 4)

  /** The fields of a sequence. */
  datatype SequenceState = SequenceState(
    id: string, name: string, timeSignature: TimeSignature, tempo: int, key: string, notes: seq<Item>)

  /** The constructor's `options`; `None` is an absent field. */
  datatype SequenceOptions = SequenceOptions(
    id: Option<string>, name: Option<string>, timeSignature: Option<TimeSignature>,
    tempo: Option<int>, key: Option<string>)

  /** What `toJSON` returns. */
  datatype SequenceJson = SequenceJson(
    id: string, name: string, timeSignature: TimeSignature, tempo: int, key: string, notes: seq<NoteJson>)

  /** The `notes` field of an object given to `fromJSON`; a `None` element
      is `null`/`undefined`. */
  datatype NotesField = NotesAbsent | NotesNotArray | NotesArray(elements: seq<Option<NoteJson>>)

  /** An object given to `fromJSON`. `nested` is an object-valued `data`
      field, which `fromJSON` reads instead of the object itself. */
  datatype DataObject = DataObject(
    id: Option<string>, name: Option<string>, timeSignature: Option<TimeSignature>,
    tempo: Option<int>, key: Option<string>, notes: NotesField, nested: Option<DataObject>)

  /** The argument of `fromJSON`, other than a string. */
  datatype JsonInput = ObjectInput(obj: DataObject) | NullInput | OtherInput

  /** The argument of `addNotes`; a `None` element is falsy. */
  datatype NotesArgument = NoNotes | NotAnArray | NoteArray(elements: seq<Option<Item>>)

  /** The cause wrapped in fromJSON's "Failed to parse sequence data" error. */
  datatype ParseError = InvalidInput | NullNote(index: nat)

  // ---------------------------------------------------------------------
  // Notes

  /** `MidiNote.toJSON`. */
  function MidiNoteJson(n: MidiNote): (j: NoteJson)
    ensures j.pitch == n.pitch && j.startTime == n.startTime && j.duration == n.duration
    ensures j.velocity == Some(n.velocity) && j.channel == Some(n.channel)
  {
    NoteJson(n.pitch, n.startTime, n.duration, Some(n.velocity), Some(n.channel))
  }

  /** `n.toJSON ? n.toJSON() : n`. */
  function ItemJson(item: Item): NoteJson {
    match item
    case NoteObject(n) => MidiNoteJson(n)
    case PlainNote(j) => j
  }

  /** The note `fromJSON` builds from a plain note: falsy velocity and
      channel take the defaults 80 and 0. */
  function NoteFromJson(j: NoteJson): (n: MidiNote)
    ensures n.pitch == j.pitch && n.startTime == j.startTime && n.duration == j.duration
    ensures n.velocity == IntOr(j.velocity, 80) && n.channel == IntOr(j.channel, 0)
  {
    MidiNote(j.pitch, j.startTime, j.duration, IntOr(j.velocity, 80), IntOr(j.channel, 0))
  }

  /** A note with a non-zero velocity survives `toJSON` followed by
      `fromJSON` unchanged (a channel 0 reads back as the default 0). */
  lemma NoteRoundTrip(n: MidiNote)
    requires n.velocity != 0
    ensures NoteFromJson(MidiNoteJson(n)) == n
  {
  }

  // ---------------------------------------------------------------------
  // Sequences as values

  /** `new MidiSequence(options)`. */
  function NewSequence(options: SequenceOptions, generatedId: string): (d: SequenceState)
    ensures d.notes == []
    ensures d.id == StringOr(options.id, generatedId) && d.name == StringOr(options.name, "Untitled Sequence")
    ensures d.timeSignature == options.timeSignature.GetOr(DefaultTimeSignature)
    ensures d.tempo == IntOr(options.tempo, 120) && d.key == StringOr(options.key, "C major")
  {
    SequenceState(StringOr(options.id, generatedId), StringOr(options.name, "Untitled Sequence"),
                  options.timeSignature.GetOr(DefaultTimeSignature), IntOr(options.tempo, 120),
                  StringOr(options.key, "C major"), [])
  }

  /** The truthy elements, in order: what `addNotes` appends. */
  function Kept(elements: seq<Option<Item>>): (r: seq<Item>)
    ensures |r| <= |elements|
  {
    if |elements| == 0 then []
    else
      var last := elements[|elements| - 1];
      Kept(elements[..|elements| - 1]) + (if last.Some? then [last.value] else [])
  }

  /** `addNotes` keeps exactly the truthy elements: each kept item comes
      from the argument, and every truthy element is kept. */
  lemma {:induction false} KeptContents(elements: seq<Option<Item>>)
    ensures forall x :: x in Kept(elements) <==> Some(x) in elements
  {
    if |elements| > 0 {
      var init := elements[..|elements| - 1];
      KeptContents(init);
      assert elements == init + [elements[|elements| - 1]];
    }
  }

  /** An argument without falsy elements is appended whole. */
  lemma {:induction false} KeptAllSome(items: seq<Item>, elements: seq<Option<Item>>)
    requires |elements| == |items| && forall i :: 0 <= i < |items| ==> elements[i] == Some(items[i])
    ensures Kept(elements) == items
  {
    if |items| > 0 {
      var n := |items| - 1;
      KeptAllSome(items[..n], elements[..n]);
      assert items == items[..n] + [items[n]];
    }
  }

  /** addNotes: a falsy or non-array argument changes nothing. */
  function AddedNotes(notes: seq<Item>, arg: NotesArgument): (r: seq<Item>)
    ensures arg.NoteArray? ==> r == notes + Kept(arg.elements)
    ensures !arg.NoteArray? ==> r == notes
  {
    match arg
    case NoteArray(elements) => notes + Kept(elements)
    case _ => notes
  }

  /** toJSON: the metadata, and each note through its own `toJSON` when it
      has one. */
  function SequenceToJson(d: SequenceState): (j: SequenceJson)
    ensures j.id == d.id && j.name == d.name && j.timeSignature == d.timeSignature
    ensures j.tempo == d.tempo && j.key == d.key
    ensures |j.notes| == |d.notes| && forall i :: 0 <= i < |d.notes| ==> j.notes[i] == ItemJson(d.notes[i])
  {
    SequenceJson(d.id, d.name, d.timeSignature, d.tempo, d.key, NotesToJson(d.notes))
  }

  function NotesToJson(items: seq<Item>): (r: seq<NoteJson>)
    ensures |r| == |items| && forall i :: 0 <= i < |items| ==> r[i] == ItemJson(items[i])
  {
    if |items| == 0 then [] else NotesToJson(items[..|items| - 1]) + [ItemJson(items[|items| - 1])]
  }

  /** The notes `fromJSON` builds; a `null` element makes `note.pitch` throw. */
  function NotesFromJson(elements: seq<Option<NoteJson>>): (r: Result<seq<Item>, ParseError>)
    ensures r.Ok? <==> forall i :: 0 <= i < |elements| ==> elements[i].Some?
    ensures r.Ok? ==> |r.value| == |elements|
    ensures r.Ok? ==>
      forall i :: 0 <= i < |elements| ==> r.value[i] == NoteObject(NoteFromJson(elements[i].value))
    ensures r.Err? ==> r.error.NullNote? && r.error.index < |elements| && elements[r.error.index].None?
  {
    if |elements| == 0 then Ok([])
    else
      var n := |elements| - 1;
      match NotesFromJson(elements[..n])
      case Err(e) => Err(e)
      case Ok(init) =>
        if elements[n].None? then Err(NullNote(n))
        else Ok(init + [NoteObject(NoteFromJson(elements[n].value))])
  }

  /** The object `fromJSON` reads its fields from. */
  function Unwrapped(obj: DataObject): DataObject {
    if obj.nested.Some? then obj.nested.value else obj
  }

  /** fromJSON on a non-string input: a null or non-object input throws;
      missing metadata takes the import defaults, and notes that are absent
      or not an array give an empty sequence. */
  function FromJson(input: JsonInput, generatedId: string): (r: Result<SequenceState, ParseError>)
    requires generatedId != ""
    ensures !input.ObjectInput? ==> r == Err(InvalidInput)
    ensures input.ObjectInput? && !Unwrapped(input.obj).notes.NotesArray? ==> r.Ok? && r.value.notes == []
    ensures r.Ok? ==>
      var data := Unwrapped(input.obj);
      r.value.id == StringOr(data.id, generatedId) && r.value.name == StringOr(data.name, "Imported Sequence") &&
      r.value.timeSignature == data.timeSignature.GetOr(DefaultTimeSignature) &&
      r.value.tempo == IntOr(data.tempo, 120) && r.value.key == StringOr(data.key, "C major")
  {
    match input
    case ObjectInput(obj) =>
      var data := Unwrapped(obj);
      var base := NewSequence(SequenceOptions(
        Some(StringOr(data.id, generatedId)), Some(StringOr(data.name, "Imported Sequence")),
        Some(data.timeSignature.GetOr(DefaultTimeSignature)), Some(IntOr(data.tempo, 120)),
        Some(StringOr(data.key, "C major"))), generatedId);
      if data.notes.NotesArray? then
        match NotesFromJson(data.notes.elements)
        case Err(e) => Err(e)
        case Ok(items) => Ok(base.(notes := items))
      else Ok(base)
    case _ => Err(InvalidInput)
  }

  /** The object form of a `toJSON` result. */
  function JsonObject(j: SequenceJson): (obj: DataObject)
    ensures obj.nested.None? && obj.notes.NotesArray? && |obj.notes.elements| == |j.notes|
    ensures forall i :: 0 <= i < |j.notes| ==> obj.notes.elements[i] == Some(j.notes[i])
  {
    DataObject(Some(j.id), Some(j.name), Some(j.timeSignature), Some(j.tempo), Some(j.key),
               NotesArray(SomeEach(j.notes)), None)
  }

  function SomeEach(ns: seq<NoteJson>): (r: seq<Option<NoteJson>>)
    ensures |r| == |ns| && forall i :: 0 <= i < |ns| ==> r[i] == Some(ns[i])
  {
    if |ns| == 0 then [] else SomeEach(ns[..|ns| - 1]) + [Some(ns[|ns| - 1])]
  }

  /** `fromJSON(toJSON(s))` keeps the metadata when it is truthy, and keeps
      every note's pitch, start, duration and channel, and its velocity
      when non-zero (80 otherwise); every note comes back as a `MidiNote`. */
  lemma FromJsonRoundTrip(d: SequenceState, generatedId: string)
    requires generatedId != "" && d.id != "" && d.name != "" && d.tempo != 0 && d.key != ""
    ensures var r := FromJson(ObjectInput(JsonObject(SequenceToJson(d))), generatedId);
      r.Ok? && r.value.id == d.id && r.value.name == d.name && r.value.timeSignature == d.timeSignature &&
      r.value.tempo == d.tempo && r.value.key == d.key && |r.value.notes| == |d.notes| &&
      forall i :: 0 <= i < |d.notes| ==>
        r.value.notes[i].NoteObject? &&
        var n, j := r.value.notes[i].note, ItemJson(d.notes[i]);
        n.pitch == j.pitch && n.startTime == j.startTime && n.duration == j.duration &&
        n.velocity == (if j.velocity.Some? && j.velocity.value != 0 then j.velocity.value else 80) &&
        n.channel == (if j.channel.Some? then j.channel.value else 0)
  {
  }

  /** A sequence of `MidiNote`s with non-zero velocities and truthy
      metadata survives the round trip exactly. */
  lemma FromJsonRoundTripExact(d: SequenceState, generatedId: string)
    requires generatedId != "" && d.id != "" && d.name != "" && d.tempo != 0 && d.key != ""
    requires forall i :: 0 <= i < |d.notes| ==>
      d.notes[i].NoteObject? && d.notes[i].note.velocity != 0
    ensures FromJson(ObjectInput(JsonObject(SequenceToJson(d))), generatedId) == Ok(d)
  {
    FromJsonRoundTrip(d, generatedId);
    var r := FromJson(ObjectInput(JsonObject(SequenceToJson(d))), generatedId);
    assert r.value.notes == d.notes;
  }

  // ---------------------------------------------------------------------
  // The mutable sequence

  class MidiSequence {
    var id: string
    var name: string
    var notes: seq<Item>
    var timeSignature: TimeSignature
    var tempo: int
    var key: string

    function Data(): SequenceState
      reads this
    {
      SequenceState(id, name, timeSignature, tempo, key, notes)
    }

    constructor(options: SequenceOptions, generatedId: string)
      ensures Data() == NewSequence(options, generatedId)
    {
      id := StringOr(options.id, generatedId);
      name := StringOr(options.name, "Untitled Sequence");
      notes := [];
      timeSignature := options.timeSignature.GetOr(DefaultTimeSignature);
      tempo := IntOr(options.tempo, 120);
      key := StringOr(options.key, "C major");
    }

    method AddNote(note: Item)
      modifies this
      ensures Data() == old(Data()).(notes := old(notes) + [note])
    {
      notes := notes + [note];
    }

    /** addNotes: each truthy element, in order. */
    method AddNotes(arg: NotesArgument)
      modifies this
      ensures Data() == old(Data()).(notes := AddedNotes(old(notes), arg))
    {
      if !arg.NoteArray? {
        return;
      }
      var elements := arg.elements;
      var i := 0;
      while i < |elements|
        invariant 0 <= i <= |elements|
        invariant Data() == old(Data()).(notes := old(notes) + Kept(elements[..i]))
      {
        assert elements[..i + 1][..i] == elements[..i];
        if elements[i].Some? {
          AddNote(elements[i].value);
        }
        i := i + 1;
      }
      assert elements[..i] == elements;
    }

    method Clear()
      modifies this
      ensures Data() == old(Data()).(notes := [])
    {
      notes := [];
    }

    function ToJson(): SequenceJson
      reads this
    {
      SequenceToJson(Data())
    }

    /** fromJSON on a non-string input. */
    static method FromJsonObject(input: JsonInput, generatedId: string) returns (r: Result<MidiSequence, ParseError>)
      requires generatedId != ""
      ensures FromJson(input, generatedId).Err? ==> r == Err(FromJson(input, generatedId).error)
      ensures FromJson(input, generatedId).Ok? ==>
        r.Ok? && fresh(r.value) && r.value.Data() == FromJson(input, generatedId).value
    {
      if !input.ObjectInput? {
        return Err(InvalidInput);
      }
      var data := Unwrapped(input.obj);
      var sequence := new MidiSequence(SequenceOptions(
        Some(StringOr(data.id, generatedId)), Some(StringOr(data.name, "Imported Sequence")),
        Some(data.timeSignature.GetOr(DefaultTimeSignature)), Some(IntOr(data.tempo, 120)),
        Some(StringOr(data.key, "C major"))), generatedId);
      if data.notes.NotesArray? {
        var built := NotesFromJson(data.notes.elements);
        if built.Err? {
          return Err(built.error);
        }
        var wrapped := SomeItems(built.value);
        KeptAllSome(built.value, wrapped);
        sequence.AddNotes(NoteArray(wrapped));
      } else {
        sequence.notes := [];
      }
      r := Ok(sequence);
    }
  }

  function SomeItems(items: seq<Item>): (r: seq<Option<Item>>)
    ensures |r| == |items| && forall i :: 0 <= i < |items| ==> r[i] == Some(items[i])
  {
    if |items| == 0 then [] else SomeItems(items[..|items| - 1]) + [Some(items[|items| - 1])]
  }
}
