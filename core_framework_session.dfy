// src/core/midi-framework.js, `Session` (lines 890-989): a dictionary of
// sequences and the id of the current one.
//
// The sequences are held as values (the source keeps MidiSequence objects
// and hands out references to them); `order` is the key order of the
// `sequences` object, which `Object.values` follows. Each operation is a
// function from one session state to the next together with what the call
// returns or throws, and the `Session` class performs it on its fields.
module CoreFrameworkSession {
  import opened JsSupport
  import opened CoreFrameworkSequence

  /** What the source throws: `Sequence with ID … not found`, `No current
      sequence selected`, and `Failed to import sequence: …`. */
  datatype SessionError = SequenceNotFound(id: string) | NoCurrentSequence | ImportFailed

  datatype SessionState = SessionState(sequences: map<string, SequenceData>, order: seq<string>, current: Option<string>)

  /** The state of `new Session(id)`: no sequences, no current one. */
  const EmptySession := SessionState(map[], [], None)

  // ---------------------------------------------------------------------
  // Invariants

  /** The key order lists every stored sequence once, and each sequence is
      stored under its own id. */
  predicate KeysValid(st: SessionState) {
    (forall k :: k in st.order ==> k in st.sequences) &&
    (forall k :: k in st.sequences ==> k in st.order) &&
    NoDuplicates(st.order) &&
    (forall k :: k in st.sequences ==> st.sequences[k].id == k)
  }

  /** Nothing is ever deleted, so a current id always names a stored
      sequence. */
  predicate Consistent(st: SessionState) {
    KeysValid(st) && (st.current.Some? ==> st.current.value in st.sequences)
  }

  /** `this.sequences[key] = d`: a new key goes last, an existing one keeps
      its place. */
  function PutSequence(st: SessionState, key: string, d: SequenceData): SessionState {
    st.(sequences := st.sequences[key := d],
        order := if key in st.sequences then st.order else st.order + [key])
  }

  lemma PutSequenceValid(st: SessionState, d: SequenceData, current: Option<string>)
    requires Consistent(st)
    requires current.Some? ==> current.value in st.sequences || current.value == d.id
    ensures Consistent(PutSequence(st, d.id, d).(current := current))
  {
  }

  // ---------------------------------------------------------------------
  // The operations

  /** createSequence: the new sequence is stored under its id and becomes
      the current one. */
  function CreateSequenceStep(st: SessionState, options: SequenceOptions, generatedId: string): (SessionState, SequenceData) {
    var d := NewSequence(options, generatedId);
    (PutSequence(st, d.id, d).(current := Some(d.id)), d)
  }

  /** getSequence. */
  function LookupSequence(st: SessionState, sequenceId: string): (r: Result<SequenceData, SessionError>)
    ensures r.Ok? <==> sequenceId in st.sequences
    ensures r.Ok? ==> r.value == st.sequences[sequenceId]
    ensures r.Err? ==> r.error == SequenceNotFound(sequenceId)
  {
    if sequenceId !in st.sequences then Err(SequenceNotFound(sequenceId)) else Ok(st.sequences[sequenceId])
  }

  /** getCurrentSequence: null (None) for a falsy or dangling current id. */
  function CurrentSequence(st: SessionState): (r: Option<SequenceData>)
    ensures r.Some? <==> st.current.Some? && st.current.value != "" && st.current.value in st.sequences
    ensures r.Some? ==> r.value == st.sequences[st.current.value]
  {
    if st.current.Some? && st.current.value != "" && st.current.value in st.sequences
    then Some(st.sequences[st.current.value])
    else None
  }

  /** setCurrentSequence: a missing id throws and changes nothing. */
  function SetCurrentSequenceStep(st: SessionState, sequenceId: string): (SessionState, Result<SequenceData, SessionError>) {
    if sequenceId !in st.sequences then (st, Err(SequenceNotFound(sequenceId)))
    else (st.(current := Some(sequenceId)), Ok(st.sequences[sequenceId]))
  }

  /** One row of listSequences. */
  datatype SequenceSummary = SequenceSummary(id: string, name: string, key: string, tempo: int, noteCount: nat, duration: real)

  function Summary(d: SequenceData): SequenceSummary {
    SequenceSummary(d.id, d.name, d.key, d.tempo, |d.notes|, Duration(d.notes))
  }

  /** listSequences, in key order: one row per stored sequence. */
  function SequenceList(st: SessionState): (r: seq<SequenceSummary>)
    requires KeysValid(st)
    ensures |r| == |st.order| == |st.sequences|
    ensures forall i :: 0 <= i < |r| ==> r[i] == Summary(st.sequences[st.order[i]])
  {
    KeyCount(st);
    seq(|st.order|, i requires 0 <= i < |st.order| => Summary(st.sequences[st.order[i]]))
  }

  /** A list of distinct keys that is exactly the key set of the map has
      one entry per key. */
  lemma KeyCount(st: SessionState)
    requires KeysValid(st)
    ensures |st.order| == |st.sequences|
  {
    NoDuplicatesCard(st.order);
    assert (set k | k in st.order) == st.sequences.Keys;
  }

  lemma {:induction false} NoDuplicatesCard(s: seq<string>)
    requires NoDuplicates(s)
    ensures |set k | k in s| == |s|
  {
    if |s| > 0 {
      var rest := s[..|s| - 1];
      var last := s[|s| - 1];
      assert NoDuplicates(rest) by {
        forall i, j | 0 <= i < j < |rest|
          ensures rest[i] != rest[j]
        {
          assert rest[i] == s[i] && rest[j] == s[j];
        }
      }
      NoDuplicatesCard(rest);
      assert s == rest + [last];
      assert last !in rest by {
        forall i | 0 <= i < |rest|
          ensures rest[i] != last
        {
          assert rest[i] == s[i];
        }
      }
      assert (set k | k in s) == (set k | k in rest) + {last};
    }
  }

  /** The note `addNotes` makes of an argument: a MidiNote stays as it is;
      for a plain object a falsy velocity becomes 80 and a falsy channel 0,
      so an explicit velocity 0 also becomes 80. */
  function SessionNote(a: NoteArg): (d: NoteData)
    ensures a.Instance? ==> d == a.note
    ensures a.Plain? ==> d.pitch == a.json.pitch && d.startTime == a.json.startTime && d.duration == a.json.duration
    ensures a.Plain? ==> d.velocity == IntOr(a.json.velocity, 80) && d.channel == a.json.channel.GetOr(0)
  {
    match a
    case Instance(n) => n
    case Plain(j) => NoteData(j.pitch, j.startTime, j.duration, IntOr(j.velocity, 80), IntOr(j.channel, 0))
  }

  /** `notes.map(...)` over an array. */
  function SessionNotes(args: seq<NoteArg>): (ns: seq<NoteData>)
    ensures |ns| == |args| && forall i :: 0 <= i < |args| ==> ns[i] == SessionNote(args[i])
  {
    if |args| == 0 then [] else [SessionNote(args[0])] + SessionNotes(args[1..])
  }

  /** The `midiNotes` of addNotes: a non-array gives none. */
  function Converted(notes: NoteArgs): (ns: seq<NoteData>)
    ensures notes.NotAnArray? ==> ns == []
    ensures notes.ArgArray? ==> |ns| == |notes.items|
  {
    match notes
    case ArgArray(items) => SessionNotes(items)
    case NotAnArray => []
  }

  /** addNotes: appends the converted notes to the current sequence and
      returns them. */
  function AddNotesStep(st: SessionState, notes: NoteArgs): (SessionState, Result<seq<NoteData>, SessionError>) {
    match CurrentSequence(st)
    case None => (st, Err(NoCurrentSequence))
    case Some(d) =>
      var midiNotes := Converted(notes);
      (PutSequence(st, st.current.value, d.(notes := d.notes + midiNotes)), Ok(midiNotes))
  }

  /** clearNotes: empties the current sequence and returns a copy of the
      notes it had. */
  function ClearNotesStep(st: SessionState): (SessionState, Result<seq<NoteData>, SessionError>) {
    match CurrentSequence(st)
    case None => (st, Err(NoCurrentSequence))
    case Some(d) => (PutSequence(st, st.current.value, d.(notes := [])), Ok(d.notes))
  }

  /** exportCurrentSequence: the current sequence's `toJSON()`. */
  function CurrentJson(st: SessionState): (r: Result<SequenceJson, SessionError>)
    ensures r.Ok? <==> CurrentSequence(st).Some?
    ensures r.Ok? ==> FromJson(r.value, "").notes == CurrentSequence(st).value.notes
    ensures r.Err? ==> r.error == NoCurrentSequence
  {
    match CurrentSequence(st)
    case None => Err(NoCurrentSequence)
    case Some(d) =>
      JsonRoundTrip(d, "");
      Ok(ToJson(d))
  }

  /** The argument of importSequence: a parsed object (or a string that
      parses to it), or something `fromJSON` throws on (text that is not
      JSON, null). */
  datatype ImportArg = ParsedJson(json: SequenceJson) | Unreadable

  /** importSequence: stores `fromJSON(json)` under its id and makes it
      current; a failure changes nothing. */
  function ImportSequenceStep(st: SessionState, arg: ImportArg, generatedId: string): (SessionState, Result<SequenceData, SessionError>) {
    match arg
    case Unreadable => (st, Err(ImportFailed))
    case ParsedJson(json) =>
      var d := FromJson(json, generatedId);
      (PutSequence(st, d.id, d).(current := Some(d.id)), Ok(d))
  }

  // ---------------------------------------------------------------------
  // Every operation keeps the session consistent

  lemma CreateSequenceValid(st: SessionState, options: SequenceOptions, generatedId: string)
    requires Consistent(st)
    ensures Consistent(CreateSequenceStep(st, options, generatedId).0)
  {
    PutSequenceValid(st, NewSequence(options, generatedId), Some(NewSequence(options, generatedId).id));
  }

  lemma SetCurrentSequenceValid(st: SessionState, sequenceId: string)
    requires Consistent(st)
    ensures Consistent(SetCurrentSequenceStep(st, sequenceId).0)
  {
  }

  lemma AddNotesValid(st: SessionState, notes: NoteArgs)
    requires Consistent(st)
    ensures Consistent(AddNotesStep(st, notes).0)
  {
    if CurrentSequence(st).Some? {
      var d := CurrentSequence(st).value;
      PutSequenceValid(st, d.(notes := d.notes + Converted(notes)), st.current);
    }
  }

  lemma ClearNotesValid(st: SessionState)
    requires Consistent(st)
    ensures Consistent(ClearNotesStep(st).0)
  {
    if CurrentSequence(st).Some? {
      var d := CurrentSequence(st).value;
      PutSequenceValid(st, d.(notes := []), st.current);
    }
  }

  lemma ImportSequenceValid(st: SessionState, arg: ImportArg, generatedId: string)
    requires Consistent(st)
    ensures Consistent(ImportSequenceStep(st, arg, generatedId).0)
  {
    if arg.ParsedJson? {
      var d := FromJson(arg.json, generatedId);
      PutSequenceValid(st, d, Some(d.id));
    }
  }

  // ---------------------------------------------------------------------
  // What the operations promise together

  /** A created sequence is stored under its id, and it is the current one
      unless its id is empty (only possible when the fallback id is). */
  lemma CreateThenGet(st: SessionState, options: SequenceOptions, generatedId: string)
    ensures var (after, d) := CreateSequenceStep(st, options, generatedId);
            LookupSequence(after, d.id) == Ok(d) &&
            (d.id != "" <==> CurrentSequence(after) == Some(d)) &&
            (generatedId != "" ==> CurrentSequence(after) == Some(d))
  {
    var (after, d) := CreateSequenceStep(st, options, generatedId);
    assert after.current == Some(d.id) && d.id in after.sequences && after.sequences[d.id] == d;
  }

  /** A sequence created under a new id goes last in listSequences; the
      rows before it are unchanged. */
  lemma CreateListsLast(st: SessionState, options: SequenceOptions, generatedId: string)
    requires KeysValid(st) && NewSequence(options, generatedId).id !in st.sequences
    ensures KeysValid(CreateSequenceStep(st, options, generatedId).0)
    ensures SequenceList(CreateSequenceStep(st, options, generatedId).0) ==
            SequenceList(st) + [Summary(NewSequence(options, generatedId))]
  {
    var d := NewSequence(options, generatedId);
    var after := CreateSequenceStep(st, options, generatedId).0;
    assert after.order == st.order + [d.id];
    var l, l0 := SequenceList(after), SequenceList(st);
    assert |l| == |l0| + 1;
    forall i | 0 <= i < |l0|
      ensures l[i] == l0[i]
    {
      assert st.order[i] in st.sequences && st.order[i] != d.id;
    }
  }

  /** setCurrentSequence on a stored id makes that sequence current; a
      missing id is an error that changes nothing. */
  lemma SetThenCurrent(st: SessionState, sequenceId: string)
    ensures sequenceId in st.sequences && sequenceId != "" ==>
            CurrentSequence(SetCurrentSequenceStep(st, sequenceId).0) == Some(st.sequences[sequenceId])
    ensures sequenceId !in st.sequences ==> SetCurrentSequenceStep(st, sequenceId) == (st, Err(SequenceNotFound(sequenceId)))
  {
  }

  /** addNotes appends exactly what it returns to the current sequence:
      its note count grows by that many, and no other sequence, nor the
      key order, nor the current id changes. */
  lemma AddNotesAppends(st: SessionState, notes: NoteArgs)
    requires Consistent(st) && CurrentSequence(st).Some?
    ensures var (after, r) := AddNotesStep(st, notes);
            r.Ok? && r.value == Converted(notes) &&
            CurrentSequence(after) == Some(CurrentSequence(st).value.(notes := CurrentSequence(st).value.notes + r.value)) &&
            after.order == st.order && after.current == st.current &&
            after.sequences.Keys == st.sequences.Keys &&
            (forall k :: k in st.sequences && k != st.current.value ==> after.sequences[k] == st.sequences[k])
  {
  }

  /** Without a current sequence, addNotes, clearNotes and
      exportCurrentSequence fail and change nothing. */
  lemma NoCurrentFails(st: SessionState, notes: NoteArgs)
    requires CurrentSequence(st).None?
    ensures AddNotesStep(st, notes) == (st, Err(NoCurrentSequence))
    ensures ClearNotesStep(st) == (st, Err(NoCurrentSequence))
    ensures CurrentJson(st) == Err(NoCurrentSequence)
  {
  }

  /** clearNotes right after addNotes returns the notes the sequence had
      followed by the ones added, and leaves the sequence empty. */
  lemma ClearAfterAdd(st: SessionState, notes: NoteArgs)
    requires Consistent(st) && CurrentSequence(st).Some?
    ensures var (after, r) := ClearNotesStep(AddNotesStep(st, notes).0);
            r == Ok(CurrentSequence(st).value.notes + Converted(notes)) &&
            CurrentSequence(after) == Some(CurrentSequence(st).value.(notes := []))
  {
    AddNotesAppends(st, notes);
  }

  /** Exporting the current sequence and importing the result stores the
      same sequence under the same key and changes nothing else, when its
      metadata is truthy (fromJSON turns falsy metadata into defaults). */
  lemma ExportImportRoundTrip(st: SessionState, generatedId: string)
    requires Consistent(st) && CurrentSequence(st).Some? && TruthyMetadata(CurrentSequence(st).value)
    ensures CurrentJson(st).Ok?
    ensures ImportSequenceStep(st, ParsedJson(CurrentJson(st).value), generatedId) ==
            (st, Ok(CurrentSequence(st).value))
  {
    var d := CurrentSequence(st).value;
    JsonRoundTrip(d, generatedId);
    assert FromJson(ToJson(d), generatedId) == d;
    assert d.id == st.current.value;
    assert st.sequences[d.id := d] == st.sequences;
  }

  /** A plain note given to addNotes with velocity 0 is stored with
      velocity 80, whereas `MidiNote.fromJSON` keeps the 0. */
  lemma ZeroVelocityBecomesDefault(j: NoteJson)
    requires j.velocity == Some(0)
    ensures SessionNote(Plain(j)).velocity == 80 && NoteOf(j).velocity == 0
  {
  }

  /** Otherwise the conversion is that of `addNote`. */
  lemma SessionNoteAsAddNote(a: NoteArg)
    requires !(a.Plain? && a.json.velocity == Some(0))
    ensures SessionNote(a) == ArgNote(a)
  {
  }

  // ---------------------------------------------------------------------
  // The class

  class Session {
    var id: string
    var sequences: map<string, SequenceData>
    var order: seq<string>
    var currentSequenceId: Option<string>

    function State(): SessionState
      reads this
    {
      SessionState(sequences, order, currentSequenceId)
    }

    predicate Valid()
      reads this
    {
      Consistent(State())
    }

    /** `new Session(id)`: `generatedId` stands for the `session_<clock>`
        fallback. */
    constructor(sessionId: Option<string>, generatedId: string)
      ensures id == StringOr(sessionId, generatedId) && State() == EmptySession && Valid()
    {
      id := StringOr(sessionId, generatedId);
      sequences, order, currentSequenceId := map[], [], None;
    }

    /** `this.sequences[key] = d`. */
    method Store(key: string, d: SequenceData)
      modifies this
      ensures State() == PutSequence(old(State()), key, d) && id == old(id)
    {
      if key !in sequences {
        order := order + [key];
      }
      sequences := sequences[key := d];
    }

    method CreateSequence(options: SequenceOptions, generatedId: string) returns (sequence: SequenceData)
      requires Valid()
      modifies this
      ensures Valid() && (State(), sequence) == CreateSequenceStep(old(State()), options, generatedId) && id == old(id)
    {
      ghost var st := State();
      sequence := NewSequence(options, generatedId);
      Store(sequence.id, sequence);
      currentSequenceId := Some(sequence.id);
      CreateSequenceValid(st, options, generatedId);
    }

    method GetSequence(sequenceId: string) returns (r: Result<SequenceData, SessionError>)
      ensures r == LookupSequence(State(), sequenceId)
    {
      if sequenceId !in sequences {
        return Err(SequenceNotFound(sequenceId));
      }
      r := Ok(sequences[sequenceId]);
    }

    method GetCurrentSequence() returns (r: Option<SequenceData>)
      ensures r == CurrentSequence(State())
    {
      if currentSequenceId.None? || currentSequenceId.value == "" || currentSequenceId.value !in sequences {
        return None;
      }
      r := Some(sequences[currentSequenceId.value]);
    }

    method SetCurrentSequence(sequenceId: string) returns (r: Result<SequenceData, SessionError>)
      requires Valid()
      modifies this
      ensures Valid() && (State(), r) == SetCurrentSequenceStep(old(State()), sequenceId) && id == old(id)
    {
      if sequenceId !in sequences {
        return Err(SequenceNotFound(sequenceId));
      }
      currentSequenceId := Some(sequenceId);
      r := Ok(sequences[sequenceId]);
    }

    method ListSequences() returns (r: seq<SequenceSummary>)
      requires Valid()
      ensures r == SequenceList(State())
    {
      var keys, stored := order, sequences;
      r := seq(|keys|, i requires 0 <= i < |keys| && keys[i] in stored => Summary(stored[keys[i]]));
    }

    method AddNotes(notes: NoteArgs) returns (r: Result<seq<NoteData>, SessionError>)
      requires Valid()
      modifies this
      ensures Valid() && (State(), r) == AddNotesStep(old(State()), notes) && id == old(id)
    {
      ghost var st := State();
      var sequence := GetCurrentSequence();
      if sequence.None? {
        return Err(NoCurrentSequence);
      }
      var midiNotes := Converted(notes);
      var d := sequence.value;
      Store(currentSequenceId.value, d.(notes := d.notes + midiNotes));
      AddNotesValid(st, notes);
      r := Ok(midiNotes);
    }

    method ClearNotes() returns (r: Result<seq<NoteData>, SessionError>)
      requires Valid()
      modifies this
      ensures Valid() && (State(), r) == ClearNotesStep(old(State())) && id == old(id)
    {
      ghost var st := State();
      var sequence := GetCurrentSequence();
      if sequence.None? {
        return Err(NoCurrentSequence);
      }
      var d := sequence.value;
      var previousNotes := d.notes;
      Store(currentSequenceId.value, d.(notes := []));
      ClearNotesValid(st);
      r := Ok(previousNotes);
    }

    method ExportCurrentSequence() returns (r: Result<SequenceJson, SessionError>)
      ensures r == CurrentJson(State())
    {
      var sequence := GetCurrentSequence();
      if sequence.None? {
        return Err(NoCurrentSequence);
      }
      r := Ok(ToJson(sequence.value));
    }

    method ImportSequence(json: ImportArg, generatedId: string) returns (r: Result<SequenceData, SessionError>)
      requires Valid()
      modifies this
      ensures Valid() && (State(), r) == ImportSequenceStep(old(State()), json, generatedId) && id == old(id)
    {
      ghost var st := State();
      if json.Unreadable? {
        return Err(ImportFailed);
      }
      var created := SequenceFromJSON(json.json, generatedId);
      var sequence := created.Data();
      Store(sequence.id, sequence);
      currentSequenceId := Some(sequence.id);
      ImportSequenceValid(st, json, generatedId);
      r := Ok(sequence);
    }
  }
}
