// midi-framework.js, `Session` (lines 656-1002): a dictionary of sequences,
// the id of the current one, and a bounded undo history with a cursor.
//
// The sequences are held as values (the source keeps objects whose
// references it hands out); `order` is the key order of the `sequences`
// object, which `Object.keys`/`Object.values` follow. Each operation is a
// function from one session state to the next together with what the call
// returns or throws, and the `Session` class performs it on its fields.
module RootSession {
  import opened JsSupport
  import opened RootSequence

  const MaxHistorySize := 50

  /** A history entry; the source's `timestamp` is left out. */
  datatype Operation =
    | CreateSequenceOp(sequenceId: string)
    | DeleteSequenceOp(sequenceId: string, sequence: SequenceData)
    | UpdateSequenceOp(sequenceId: string, previousState: SequenceData)
    | AddNoteOp(sequenceId: string, note: MidiNote)
    | AddNotesOp(sequenceId: string, notes: seq<MidiNote>)
    | ClearNotesOp(sequenceId: string, previousNotes: seq<MidiNote>)
    | ImportSequenceOp(sequenceId: string)

  /** What the source throws. `MissingSequence` is the TypeError of undoing
      or redoing a note operation on a sequence that is no longer there. */
  datatype SessionError = SequenceNotFound(id: string) | NoCurrentSequence | MissingSequence(missingId: string)

  datatype SessionState = SessionState(
    sequences: map<string, SequenceData>,
    order: seq<string>,
    current: Option<string>,
    history: seq<Operation>,
    historyIndex: int)

  /** The state of `new Session(id)`. */
  const EmptySession := SessionState(map[], [], None, [], -1)

  // ---------------------------------------------------------------------
  // Invariants

  /** The cursor points into the history (or just before it), and the
      history never exceeds its maximum size. */
  predicate HistoryValid(st: SessionState) {
    -1 <= st.historyIndex < |st.history| <= MaxHistorySize
  }

  /** A history entry names a sequence by a real id, and the snapshots it
      keeps are of that sequence. */
  predicate OpValid(op: Operation) {
    op.sequenceId != "" &&
    (op.DeleteSequenceOp? ==> op.sequence.id == op.sequenceId) &&
    (op.UpdateSequenceOp? ==> op.previousState.id == op.sequenceId)
  }

  /** The key order lists every stored sequence once, and each sequence is
      stored under its own id. */
  predicate KeysValid(st: SessionState) {
    (forall k :: k in st.order ==> k in st.sequences) &&
    (forall k :: k in st.sequences ==> k in st.order) &&
    NoDuplicates(st.order) &&
    (forall k :: k in st.sequences ==> st.sequences[k].id == k && k != "")
  }

  predicate Consistent(st: SessionState) {
    HistoryValid(st) && KeysValid(st) &&
    forall i :: 0 <= i < |st.history| ==> OpValid(st.history[i])
  }

  // ---------------------------------------------------------------------
  // The `sequences` object

  /** `this.sequences[key] = d`: a new key goes last, an existing one keeps
      its place. */
  function PutSequence(st: SessionState, key: string, d: SequenceData): SessionState {
    st.(sequences := st.sequences[key := d],
        order := if key in st.sequences then st.order else st.order + [key])
  }

  /** `delete this.sequences[key]`: a missing key changes nothing. */
  function DeleteKey(st: SessionState, key: string): SessionState {
    st.(sequences := st.sequences - {key}, order := Without(st.order, key))
  }

  lemma PutSequenceKeys(st: SessionState, d: SequenceData)
    requires KeysValid(st) && d.id != ""
    ensures KeysValid(PutSequence(st, d.id, d))
  {
  }

  lemma DeleteKeyKeys(st: SessionState, key: string)
    requires KeysValid(st)
    ensures KeysValid(DeleteKey(st, key))
  {
    WithoutNoDuplicates(st.order, key);
  }

  // ---------------------------------------------------------------------
  // _addToHistory

  /** `_addToHistory`: drop the entries after the cursor, append, point
      the cursor at the new entry, and drop the oldest entry when the
      history outgrows its maximum size. */
  function Record(st: SessionState, op: Operation): (r: SessionState)
    requires HistoryValid(st)
    ensures HistoryValid(r) && |r.history| > 0 && r.historyIndex == |r.history| - 1 && r.history[r.historyIndex] == op
    ensures r.(history := st.history, historyIndex := st.historyIndex) == st
  {
    var kept := if st.historyIndex < |st.history| - 1 then st.history[..st.historyIndex + 1] else st.history;
    var pushed := kept + [op];
    if |pushed| > MaxHistorySize then st.(history := pushed[1..], historyIndex := |pushed| - 2)
    else st.(history := pushed, historyIndex := |pushed| - 1)
  }

  /** The entries up to the cursor survive, in order, before the new one;
      only the oldest one goes once the history is full. */
  lemma RecordKeepsPast(st: SessionState, op: Operation)
    requires HistoryValid(st)
    ensures |Record(st, op).history| == if st.historyIndex + 2 > MaxHistorySize then MaxHistorySize else st.historyIndex + 2
    ensures Record(st, op).history ==
            (st.history[..st.historyIndex + 1] + [op])[st.historyIndex + 2 - |Record(st, op).history|..]
  {
    if st.historyIndex >= |st.history| - 1 {
      assert st.history[..st.historyIndex + 1] == st.history;
    }
  }

  lemma RecordValid(st: SessionState, op: Operation)
    requires Consistent(st) && OpValid(op)
    ensures Consistent(Record(st, op))
  {
    var r := Record(st, op);
    forall i | 0 <= i < |r.history|
      ensures OpValid(r.history[i])
    {
      RecordKeepsPast(st, op);
      var all := st.history[..st.historyIndex + 1] + [op];
      var k := st.historyIndex + 2 - |r.history|;
      assert r.history[i] == all[k + i];
      if k + i <= st.historyIndex {
        assert all[k + i] == st.history[k + i];
      }
    }
  }

  // ---------------------------------------------------------------------
  // Sequence operations

  /** createSequence: the new sequence is stored under its id, becomes the
      current one, and is recorded. */
  function CreateSequenceStep(st: SessionState, options: SequenceOptions, generatedId: string): (SessionState, SequenceData)
    requires HistoryValid(st)
  {
    var d := NewSequence(options, generatedId);
    (Record(PutSequence(st, d.id, d).(current := Some(d.id)), CreateSequenceOp(d.id)), d)
  }

  /** getCurrentSequence: none for a falsy or dangling current id. */
  function CurrentSequence(st: SessionState): (r: Option<SequenceData>)
    ensures r.Some? <==> st.current.Some? && st.current.value != "" && st.current.value in st.sequences
    ensures r.Some? ==> r.value == st.sequences[st.current.value]
  {
    if st.current.Some? && st.current.value != "" && st.current.value in st.sequences
    then Some(st.sequences[st.current.value])
    else None
  }

  /** setCurrentSequence. */
  function SetCurrentSequenceStep(st: SessionState, sequenceId: string): (SessionState, Result<SequenceData, SessionError>) {
    if sequenceId !in st.sequences then (st, Err(SequenceNotFound(sequenceId)))
    else (st.(current := Some(sequenceId)), Ok(st.sequences[sequenceId]))
  }

  /** getSequence. */
  function GetSequence(st: SessionState, sequenceId: string): (r: Result<SequenceData, SessionError>)
    ensures r.Ok? <==> sequenceId in st.sequences
    ensures r.Ok? ==> r.value == st.sequences[sequenceId]
    ensures r.Err? ==> r.error == SequenceNotFound(sequenceId)
  {
    if sequenceId !in st.sequences then Err(SequenceNotFound(sequenceId)) else Ok(st.sequences[sequenceId])
  }

  /** One row of listSequences. */
  datatype SequenceSummary = SequenceSummary(id: string, name: string, key: string, tempo: int, noteCount: nat, duration: real)

  function Summary(d: SequenceData): SequenceSummary {
    SequenceSummary(d.id, d.name, d.key, d.tempo, |d.notes|, Duration(d.notes))
  }

  /** listSequences, in key order. */
  function ListSequences(st: SessionState): (r: seq<SequenceSummary>)
    requires KeysValid(st)
    ensures |r| == |st.order|
    ensures forall i :: 0 <= i < |r| ==> r[i] == Summary(st.sequences[st.order[i]])
  {
    seq(|st.order|, i requires 0 <= i < |st.order| => Summary(st.sequences[st.order[i]]))
  }

  /** Every stored sequence appears in listSequences exactly once. */
  lemma ListSequencesOnce(st: SessionState, key: string)
    requires KeysValid(st) && key in st.sequences
    ensures exists i :: 0 <= i < |ListSequences(st)| && st.order[i] == key &&
              ListSequences(st)[i] == Summary(st.sequences[key])
    ensures forall i, j :: 0 <= i < j < |st.order| ==> st.order[i] != st.order[j]
  {
    var i :| 0 <= i < |st.order| && st.order[i] == key;
    assert ListSequences(st)[i] == Summary(st.sequences[key]);
  }

  /** deleteSequence: deleting the current sequence makes the first
      remaining one current, or none. */
  function DeleteSequenceStep(st: SessionState, sequenceId: string): (SessionState, Result<bool, SessionError>)
    requires HistoryValid(st)
  {
    if sequenceId !in st.sequences then (st, Err(SequenceNotFound(sequenceId)))
    else
      var deleted := st.sequences[sequenceId];
      var s1 := DeleteKey(st, sequenceId);
      var s2 := if st.current == Some(sequenceId)
                then s1.(current := if |s1.order| > 0 then Some(s1.order[0]) else None)
                else s1;
      (Record(s2, DeleteSequenceOp(sequenceId, deleted)), Ok(true))
  }

  /** The properties updateSequence may set; an absent one is None, and any
      given value, falsy or not, is taken. */
  datatype SequenceProperties = SequenceProperties(
    name: Option<string>, tempo: Option<int>, key: Option<string>, timeSignature: Option<TimeSignature>)

  function Updated(d: SequenceData, p: SequenceProperties): (r: SequenceData)
    ensures r.id == d.id && r.notes == d.notes
  {
    d.(name := p.name.GetOr(d.name), tempo := p.tempo.GetOr(d.tempo), key := p.key.GetOr(d.key),
       timeSignature := p.timeSignature.GetOr(d.timeSignature))
  }

  /** updateSequence: records the state before the change. */
  function UpdateSequenceStep(st: SessionState, sequenceId: string, properties: SequenceProperties)
    : (SessionState, Result<SequenceData, SessionError>)
    requires HistoryValid(st)
  {
    if sequenceId !in st.sequences then (st, Err(SequenceNotFound(sequenceId)))
    else
      var previous := st.sequences[sequenceId];
      var updated := Updated(previous, properties);
      (Record(PutSequence(st, sequenceId, updated), UpdateSequenceOp(sequenceId, previous)), Ok(updated))
  }

  /** addNote: appends to the current sequence. */
  function AddNoteStep(st: SessionState, note: MidiNote): (SessionState, Result<MidiNote, SessionError>)
    requires HistoryValid(st)
  {
    match CurrentSequence(st)
    case None => (st, Err(NoCurrentSequence))
    case Some(d) =>
      (Record(PutSequence(st, st.current.value, d.(notes := d.notes + [note])), AddNoteOp(d.id, note)), Ok(note))
  }

  /** addNotes: appends all of `ns` to the current sequence. */
  function AddNotesStep(st: SessionState, ns: seq<MidiNote>): (SessionState, Result<seq<MidiNote>, SessionError>)
    requires HistoryValid(st)
  {
    match CurrentSequence(st)
    case None => (st, Err(NoCurrentSequence))
    case Some(d) =>
      (Record(PutSequence(st, st.current.value, d.(notes := d.notes + ns)), AddNotesOp(d.id, ns)), Ok(ns))
  }

  /** clearNotes: records the notes it removes. */
  function ClearNotesStep(st: SessionState): (SessionState, Result<bool, SessionError>)
    requires HistoryValid(st)
  {
    match CurrentSequence(st)
    case None => (st, Err(NoCurrentSequence))
    case Some(d) =>
      (Record(PutSequence(st, st.current.value, d.(notes := [])), ClearNotesOp(d.id, d.notes)), Ok(true))
  }

  /** exportCurrentSequence. */
  function ExportCurrentSequence(st: SessionState): (r: Result<SequenceData, SessionError>)
    ensures r.Ok? <==> CurrentSequence(st).Some?
    ensures r.Ok? ==> r.value == st.sequences[st.current.value]
    ensures r.Err? ==> r.error == NoCurrentSequence
  {
    match CurrentSequence(st)
    case None => Err(NoCurrentSequence)
    case Some(d) => Ok(d)
  }

  /** importSequence: stores `fromJSON(json)` and makes it current. */
  function ImportSequenceStep(st: SessionState, json: SequenceData, generatedId: string): (SessionState, SequenceData)
    requires HistoryValid(st)
  {
    var d := FromJson(json, generatedId);
    (Record(PutSequence(st, d.id, d).(current := Some(d.id)), ImportSequenceOp(d.id)), d)
  }

  // ---------------------------------------------------------------------
  // undo / redo

  /** `notes.pop()`. */
  function Pop(ns: seq<MidiNote>): seq<MidiNote> {
    if |ns| == 0 then [] else ns[..|ns| - 1]
  }

  /** Where `splice(start)` starts cutting: a negative start counts from the
      end, clamped at 0; a start past the end is the end. */
  function SpliceStart(len: nat, start: int): (s: nat)
    ensures s <= len
  {
    if start < 0 then (if len + start < 0 then 0 else len + start)
    else if start > len then len
    else start
  }

  /** What undo and redo do to the notes of one sequence. */
  datatype NoteEdit =
    | PopLast                       // notes.pop()
    | SpliceFrom(count: nat)        // notes.splice(notes.length - count)
    | Restore(notes: seq<MidiNote>) // notes = previousNotes (copied)
    | Append(added: seq<MidiNote>)  // addNote / addNotes
    | ClearAll                      // clear()

  function ApplyEdit(e: NoteEdit, ns: seq<MidiNote>): seq<MidiNote> {
    match e
    case PopLast => Pop(ns)
    case SpliceFrom(count) => ns[..SpliceStart(|ns|, |ns| - count)]
    case Restore(previous) => previous
    case Append(added) => ns + added
    case ClearAll => []
  }

  /** Edits the notes of the sequence stored under `key`; the TypeError of
      a missing sequence comes back as `MissingSequence`. */
  function EditNotes(st: SessionState, key: string, e: NoteEdit): (SessionState, Result<bool, SessionError>) {
    if key !in st.sequences then (st, Err(MissingSequence(key)))
    else
      var d := st.sequences[key];
      (PutSequence(st, key, d.(notes := ApplyEdit(e, d.notes))), Ok(true))
  }

  /** undo: steps the cursor back over the entry it points at and reverts
      it. `generatedId` is for `fromJSON`, which only uses it for a falsy
      id. */
  function UndoStep(st: SessionState, generatedId: string): (SessionState, Result<bool, SessionError>)
    requires HistoryValid(st)
  {
    if st.historyIndex < 0 then (st, Ok(false))
    else Revert(st.(historyIndex := st.historyIndex - 1), st.history[st.historyIndex], generatedId)
  }

  /** The `switch` of undo, once the cursor has moved back. */
  function Revert(s: SessionState, op: Operation, generatedId: string): (SessionState, Result<bool, SessionError>)
    requires HistoryValid(s)
  {
    match op
    case CreateSequenceOp(id) =>
      (DeleteKey(s, id).(current := if s.historyIndex >= 0 then Some(s.history[s.historyIndex].sequenceId) else None), Ok(true))
    case DeleteSequenceOp(id, d) => (PutSequence(s, id, FromJson(d, generatedId)), Ok(true))
    case UpdateSequenceOp(id, previous) => (PutSequence(s, id, FromJson(previous, generatedId)), Ok(true))
    case AddNoteOp(id, _) => EditNotes(s, id, PopLast)
    case AddNotesOp(id, added) => EditNotes(s, id, SpliceFrom(|added|))
    case ClearNotesOp(id, previous) => EditNotes(s, id, Restore(previous))
    case ImportSequenceOp(id) => (DeleteKey(s, id), Ok(true))
  }

  /** redo: steps the cursor onto the next entry and performs it again. */
  function RedoStep(st: SessionState, generatedId: string): (SessionState, Result<bool, SessionError>)
    requires HistoryValid(st)
  {
    if st.historyIndex >= |st.history| - 1 then (st, Ok(false))
    else Replay(st.(historyIndex := st.historyIndex + 1), st.history[st.historyIndex + 1], generatedId)
  }

  /** The `switch` of redo, once the cursor has moved forward. */
  function Replay(s: SessionState, op: Operation, generatedId: string): (SessionState, Result<bool, SessionError>) {
    match op
    case CreateSequenceOp(id) =>
      var s1 := s.(current := Some(id));
      (if id in s1.sequences then s1
       else PutSequence(s1, id, NewSequence(SequenceOptions(None, None, None, None, Some(id)), generatedId)), Ok(true))
    case DeleteSequenceOp(id, _) => (DeleteKey(s, id), Ok(true))
    case UpdateSequenceOp(_, _) => (s, Ok(true))
    case AddNoteOp(id, note) => EditNotes(s, id, Append([note]))
    case AddNotesOp(id, added) => EditNotes(s, id, Append(added))
    case ClearNotesOp(id, _) => EditNotes(s, id, ClearAll)
    case ImportSequenceOp(_) => (s, Ok(true))
  }

  // ---------------------------------------------------------------------
  // Every operation keeps the invariant

  lemma CurrentKeysValid(st: SessionState, current: Option<string>)
    requires KeysValid(st)
    ensures KeysValid(st.(current := current))
  {
  }

  lemma CreateSequenceValid(st: SessionState, options: SequenceOptions, generatedId: string)
    requires Consistent(st) && generatedId != ""
    ensures Consistent(CreateSequenceStep(st, options, generatedId).0)
  {
    var d := NewSequence(options, generatedId);
    PutSequenceKeys(st, d);
    RecordValid(PutSequence(st, d.id, d).(current := Some(d.id)), CreateSequenceOp(d.id));
  }

  lemma SetCurrentSequenceValid(st: SessionState, sequenceId: string)
    requires Consistent(st)
    ensures Consistent(SetCurrentSequenceStep(st, sequenceId).0)
  {
  }

  lemma DeleteSequenceValid(st: SessionState, sequenceId: string)
    requires Consistent(st)
    ensures Consistent(DeleteSequenceStep(st, sequenceId).0)
  {
    if sequenceId in st.sequences {
      DeleteKeyKeys(st, sequenceId);
      var s1 := DeleteKey(st, sequenceId);
      var s2 := if st.current == Some(sequenceId)
                then s1.(current := if |s1.order| > 0 then Some(s1.order[0]) else None)
                else s1;
      RecordValid(s2, DeleteSequenceOp(sequenceId, st.sequences[sequenceId]));
    }
  }

  lemma UpdateSequenceValid(st: SessionState, sequenceId: string, properties: SequenceProperties)
    requires Consistent(st)
    ensures Consistent(UpdateSequenceStep(st, sequenceId, properties).0)
  {
    if sequenceId in st.sequences {
      var previous := st.sequences[sequenceId];
      var updated := Updated(previous, properties);
      PutSequenceKeys(st, updated);
      RecordValid(PutSequence(st, sequenceId, updated), UpdateSequenceOp(sequenceId, previous));
    }
  }

  lemma AddNoteValid(st: SessionState, note: MidiNote)
    requires Consistent(st)
    ensures Consistent(AddNoteStep(st, note).0)
  {
    if CurrentSequence(st).Some? {
      var d := CurrentSequence(st).value;
      PutSequenceKeys(st, d.(notes := d.notes + [note]));
      RecordValid(PutSequence(st, d.id, d.(notes := d.notes + [note])), AddNoteOp(d.id, note));
    }
  }

  lemma AddNotesValid(st: SessionState, ns: seq<MidiNote>)
    requires Consistent(st)
    ensures Consistent(AddNotesStep(st, ns).0)
  {
    if CurrentSequence(st).Some? {
      var d := CurrentSequence(st).value;
      PutSequenceKeys(st, d.(notes := d.notes + ns));
      RecordValid(PutSequence(st, d.id, d.(notes := d.notes + ns)), AddNotesOp(d.id, ns));
    }
  }

  lemma ClearNotesValid(st: SessionState)
    requires Consistent(st)
    ensures Consistent(ClearNotesStep(st).0)
  {
    if CurrentSequence(st).Some? {
      var d := CurrentSequence(st).value;
      PutSequenceKeys(st, d.(notes := []));
      RecordValid(PutSequence(st, d.id, d.(notes := [])), ClearNotesOp(d.id, d.notes));
    }
  }

  lemma ImportSequenceValid(st: SessionState, json: SequenceData, generatedId: string)
    requires Consistent(st) && generatedId != ""
    ensures Consistent(ImportSequenceStep(st, json, generatedId).0)
  {
    var d := FromJson(json, generatedId);
    PutSequenceKeys(st, d);
    RecordValid(PutSequence(st, d.id, d).(current := Some(d.id)), ImportSequenceOp(d.id));
  }

  /** Reverting or replaying an entry changes only the sequences and the
      current id, and keeps the keys consistent. */
  lemma RevertKeys(s: SessionState, op: Operation, generatedId: string)
    requires HistoryValid(s) && KeysValid(s) && OpValid(op)
    ensures var r := Revert(s, op, generatedId).0;
            KeysValid(r) && r.history == s.history && r.historyIndex == s.historyIndex
  {
    match op
    case CreateSequenceOp(id) =>
      DeleteKeyKeys(s, id);
    case DeleteSequenceOp(id, d) =>
      PutSequenceKeys(s, FromJson(d, generatedId));
    case UpdateSequenceOp(id, previous) =>
      PutSequenceKeys(s, FromJson(previous, generatedId));
    case AddNoteOp(id, _) =>
      EditNotesKeys(s, id, PopLast);
    case AddNotesOp(id, added) =>
      EditNotesKeys(s, id, SpliceFrom(|added|));
    case ClearNotesOp(id, previous) =>
      EditNotesKeys(s, id, Restore(previous));
    case ImportSequenceOp(id) =>
      DeleteKeyKeys(s, id);
  }

  lemma ReplayKeys(s: SessionState, op: Operation, generatedId: string)
    requires KeysValid(s) && OpValid(op)
    ensures var r := Replay(s, op, generatedId).0;
            KeysValid(r) && r.history == s.history && r.historyIndex == s.historyIndex
  {
    match op
    case CreateSequenceOp(id) =>
      PutSequenceKeys(s.(current := Some(id)), NewSequence(SequenceOptions(None, None, None, None, Some(id)), generatedId));
    case DeleteSequenceOp(id, _) =>
      DeleteKeyKeys(s, id);
    case UpdateSequenceOp(_, _) =>
    case AddNoteOp(id, note) =>
      EditNotesKeys(s, id, Append([note]));
    case AddNotesOp(id, added) =>
      EditNotesKeys(s, id, Append(added));
    case ClearNotesOp(id, _) =>
      EditNotesKeys(s, id, ClearAll);
    case ImportSequenceOp(_) =>
  }

  lemma EditNotesKeys(st: SessionState, key: string, e: NoteEdit)
    requires KeysValid(st)
    ensures var r := EditNotes(st, key, e).0;
            KeysValid(r) && r.history == st.history && r.historyIndex == st.historyIndex
  {
    if key in st.sequences {
      var d := st.sequences[key];
      PutSequenceKeys(st, d.(notes := ApplyEdit(e, d.notes)));
    }
  }

  lemma UndoValid(st: SessionState, generatedId: string)
    requires Consistent(st)
    ensures Consistent(UndoStep(st, generatedId).0)
  {
    if st.historyIndex >= 0 {
      var s := st.(historyIndex := st.historyIndex - 1);
      RevertKeys(s, st.history[st.historyIndex], generatedId);
    }
  }

  lemma RedoValid(st: SessionState, generatedId: string)
    requires Consistent(st)
    ensures Consistent(RedoStep(st, generatedId).0)
  {
    if st.historyIndex < |st.history| - 1 {
      var s := st.(historyIndex := st.historyIndex + 1);
      ReplayKeys(s, st.history[st.historyIndex + 1], generatedId);
    }
  }

  // ---------------------------------------------------------------------
  // Properties of undo and redo

  /** undo reports false exactly when the cursor is before the first entry,
      and then changes nothing; otherwise it moves the cursor back by one,
      even when the revert throws, and leaves the entries alone. */
  lemma UndoCursor(st: SessionState, generatedId: string)
    requires HistoryValid(st)
    ensures UndoStep(st, generatedId).1 == Ok(false) <==> st.historyIndex < 0
    ensures st.historyIndex < 0 ==> UndoStep(st, generatedId).0 == st
    ensures st.historyIndex >= 0 ==> UndoStep(st, generatedId).0.historyIndex == st.historyIndex - 1
    ensures UndoStep(st, generatedId).0.history == st.history
  {
  }

  /** redo reports false exactly when the cursor is at the last entry, and
      then changes nothing; otherwise it moves the cursor forward by one. */
  lemma RedoCursor(st: SessionState, generatedId: string)
    requires HistoryValid(st)
    ensures RedoStep(st, generatedId).1 == Ok(false) <==> st.historyIndex >= |st.history| - 1
    ensures st.historyIndex >= |st.history| - 1 ==> RedoStep(st, generatedId).0 == st
    ensures st.historyIndex < |st.history| - 1 ==> RedoStep(st, generatedId).0.historyIndex == st.historyIndex + 1
    ensures RedoStep(st, generatedId).0.history == st.history
  {
  }

  /** The state undo returns to: everything of `st` but the history, whose
      cursor sits one before the entry just recorded. */
  function Before(st: SessionState, after: SessionState): SessionState {
    st.(history := after.history, historyIndex := after.historyIndex - 1)
  }

  /** addNotes followed by undo removes exactly the notes added: the
      session's sequences, their order and the current sequence are as
      before. */
  lemma UndoAddNotes(st: SessionState, ns: seq<MidiNote>, generatedId: string)
    requires Consistent(st) && CurrentSequence(st).Some?
    ensures AddNotesStep(st, ns).1 == Ok(ns)
    ensures UndoStep(AddNotesStep(st, ns).0, generatedId) == (Before(st, AddNotesStep(st, ns).0), Ok(true))
  {
    var d := CurrentSequence(st).value;
    var key := st.current.value;
    var s1 := AddNotesStep(st, ns).0;
    assert s1.history[s1.historyIndex] == AddNotesOp(key, ns);
    var added := d.notes + ns;
    assert added[..SpliceStart(|added|, |added| - |ns|)] == d.notes;
    var s := s1.(historyIndex := s1.historyIndex - 1);
    assert s.sequences[key] == d.(notes := added);
    assert s.sequences[key := d] == st.sequences;
  }

  /** ... and redo puts them back. */
  lemma RedoAddNotes(st: SessionState, ns: seq<MidiNote>, generatedId: string)
    requires Consistent(st) && CurrentSequence(st).Some?
    ensures RedoStep(Before(st, AddNotesStep(st, ns).0), generatedId) == (AddNotesStep(st, ns).0, Ok(true))
  {
    var d := CurrentSequence(st).value;
    var key := st.current.value;
    var s1 := AddNotesStep(st, ns).0;
    assert s1.history[s1.historyIndex] == AddNotesOp(key, ns);
  }

  /** addNote followed by undo removes that one note. */
  lemma UndoAddNote(st: SessionState, note: MidiNote, generatedId: string)
    requires Consistent(st) && CurrentSequence(st).Some?
    ensures UndoStep(AddNoteStep(st, note).0, generatedId) == (Before(st, AddNoteStep(st, note).0), Ok(true))
  {
    var d := CurrentSequence(st).value;
    var key := st.current.value;
    var s1 := AddNoteStep(st, note).0;
    assert s1.history[s1.historyIndex] == AddNoteOp(key, note);
    assert Pop(d.notes + [note]) == d.notes;
    var s := s1.(historyIndex := s1.historyIndex - 1);
    assert s.sequences[key] == d.(notes := d.notes + [note]);
    assert s.sequences[key := d] == st.sequences;
  }

  /** clearNotes followed by undo brings the notes back. */
  lemma UndoClearNotes(st: SessionState, generatedId: string)
    requires Consistent(st) && CurrentSequence(st).Some?
    ensures UndoStep(ClearNotesStep(st).0, generatedId) == (Before(st, ClearNotesStep(st).0), Ok(true))
  {
    var d := CurrentSequence(st).value;
    var key := st.current.value;
    var s1 := ClearNotesStep(st).0;
    assert s1.history[s1.historyIndex] == ClearNotesOp(key, d.notes);
    var s := s1.(historyIndex := s1.historyIndex - 1);
    assert s.sequences[key] == d.(notes := []);
    assert s.sequences[key := d] == st.sequences;
  }

  /** Creating a sequence under a new id and undoing it removes it again;
      the current sequence becomes the one the previous entry names. */
  lemma UndoCreateSequence(st: SessionState, options: SequenceOptions, generatedId: string, undoId: string)
    requires Consistent(st) && NewSequence(options, generatedId).id !in st.sequences
    ensures var s1 := CreateSequenceStep(st, options, generatedId).0;
            var s2 := UndoStep(s1, undoId).0;
            s2.sequences == st.sequences && s2.order == st.order &&
            s2.current == (if s1.historyIndex >= 1 then Some(s1.history[s1.historyIndex - 1].sequenceId) else None)
  {
    var d := NewSequence(options, generatedId);
    var s1 := CreateSequenceStep(st, options, generatedId).0;
    assert s1.history[s1.historyIndex] == CreateSequenceOp(d.id);
    assert st.sequences[d.id := d] - {d.id} == st.sequences;
    WithoutAbsent(st.order, d.id);
  }

  // ---------------------------------------------------------------------
  // toJSON / fromJSON

  /** What Session.toJSON produces; `created` is left out. */
  datatype SessionJson = SessionJson(id: string, currentSequenceId: Option<string>, sequences: seq<SequenceData>)

  /** toJSON: the sequences in key order. */
  function SessionToJson(sessionId: string, st: SessionState): (j: SessionJson)
    requires KeysValid(st)
    ensures j.id == sessionId && j.currentSequenceId == st.current && |j.sequences| == |st.order|
    ensures forall i :: 0 <= i < |st.order| ==> j.sequences[i] == st.sequences[st.order[i]]
  {
    SessionJson(sessionId, st.current, seq(|st.order|, i requires 0 <= i < |st.order| => st.sequences[st.order[i]]))
  }

  /** The sequences of the first `n` entries, each through
      MidiSequence.fromJSON and stored under its id; `ids[i]` stands for
      the id entry `i` would generate if its own is falsy. */
  function LoadSequences(jsons: seq<SequenceData>, ids: seq<string>, n: nat): SessionState
    requires |ids| == |jsons| && n <= |jsons|
  {
    if n == 0 then EmptySession
    else
      var d := FromJson(jsons[n - 1], ids[n - 1]);
      PutSequence(LoadSequences(jsons, ids, n - 1), d.id, d)
  }

  /** Session.fromJSON: the session id and the state; the history starts
      empty. */
  function SessionFromJson(json: SessionJson, generatedId: string, ids: seq<string>): (string, SessionState)
    requires |ids| == |json.sequences|
  {
    (StringOr(Some(json.id), generatedId),
     LoadSequences(json.sequences, ids, |json.sequences|).(current := json.currentSequenceId))
  }

  /** Every key has its sequence. */
  predicate Covers(order: seq<string>, m: map<string, SequenceData>) {
    forall i :: 0 <= i < |order| ==> order[i] in m
  }

  /** The sequences stored under the first `n` keys. */
  function PrefixMap(order: seq<string>, m: map<string, SequenceData>, n: nat): map<string, SequenceData>
    requires Covers(order, m) && n <= |order|
  {
    if n == 0 then map[] else PrefixMap(order, m, n - 1)[order[n - 1] := m[order[n - 1]]]
  }

  lemma {:induction false} PrefixMapAt(order: seq<string>, m: map<string, SequenceData>, n: nat, k: string)
    requires Covers(order, m) && n <= |order|
    ensures k in PrefixMap(order, m, n) <==> k in order[..n]
    ensures k in PrefixMap(order, m, n) ==> PrefixMap(order, m, n)[k] == m[k]
  {
    if n > 0 {
      PrefixMapAt(order, m, n - 1, k);
      assert order[..n] == order[..n - 1] + [order[n - 1]];
    }
  }

  /** Loading the first `n` sequences of a consistent session's JSON gives
      back exactly those sequences, in the same key order. */
  lemma {:induction false} LoadSequencesPrefix(order: seq<string>, m: map<string, SequenceData>, jsons: seq<SequenceData>, ids: seq<string>, n: nat)
    requires Covers(order, m) && NoDuplicates(order) && |ids| == |order| && |jsons| == |order| && n <= |order|
    requires forall i :: 0 <= i < |order| ==> jsons[i] == m[order[i]] && m[order[i]].id == order[i] && TruthyMetadata(m[order[i]])
    ensures LoadSequences(jsons, ids, n) == SessionState(PrefixMap(order, m, n), order[..n], None, [], -1)
  {
    if n > 0 {
      LoadSequencesPrefix(order, m, jsons, ids, n - 1);
      var key := order[n - 1];
      FromJsonRoundTrip(m[key], ids[n - 1]);
      var d := FromJson(jsons[n - 1], ids[n - 1]);
      assert d == m[key] && d.id == key;
      PrefixMapAt(order, m, n - 1, key);
      assert key !in order[..n - 1];
      assert order[..n] == order[..n - 1] + [key];
    }
  }

  /** fromJSON(toJSON()) gives back the session's id, sequences, their
      order and the current sequence, when the id and every sequence's
      metadata are truthy; the history is not saved. */
  lemma SessionJsonRoundTrip(sessionId: string, st: SessionState, generatedId: string, ids: seq<string>)
    requires KeysValid(st) && |ids| == |st.order| && sessionId != ""
    requires forall k :: k in st.sequences ==> TruthyMetadata(st.sequences[k])
    ensures SessionFromJson(SessionToJson(sessionId, st), generatedId, ids) == (sessionId, st.(history := [], historyIndex := -1))
  {
    var jsons := SessionToJson(sessionId, st).sequences;
    LoadSequencesPrefix(st.order, st.sequences, jsons, ids, |st.order|);
    assert st.order[..|st.order|] == st.order;
    forall k
      ensures k in PrefixMap(st.order, st.sequences, |st.order|) <==> k in st.sequences
      ensures k in st.sequences ==> PrefixMap(st.order, st.sequences, |st.order|)[k] == st.sequences[k]
    {
      PrefixMapAt(st.order, st.sequences, |st.order|, k);
    }
    assert PrefixMap(st.order, st.sequences, |st.order|) == st.sequences;
  }

  // ---------------------------------------------------------------------
  // The session object

  class Session {
    var id: string
    var sequences: map<string, SequenceData>
    var order: seq<string>
    var currentSequenceId: Option<string>
    var history: seq<Operation>
    var historyIndex: int

    function State(): SessionState
      reads this
    {
      SessionState(sequences, order, currentSequenceId, history, historyIndex)
    }

    predicate Valid()
      reads this
    {
      Consistent(State())
    }

    /** `new Session(id)`: `generatedId` stands for the random fallback. */
    constructor(sessionId: Option<string>, generatedId: string)
      ensures id == StringOr(sessionId, generatedId) && State() == EmptySession && Valid()
    {
      id := StringOr(sessionId, generatedId);
      sequences, order, currentSequenceId := map[], [], None;
      history, historyIndex := [], -1;
    }

    /** _addToHistory. */
    method AddToHistory(operation: Operation)
      requires HistoryValid(State())
      modifies this
      ensures State() == Record(old(State()), operation) && id == old(id)
    {
      if historyIndex < |history| - 1 {
        history := history[..historyIndex + 1];
      }
      history := history + [operation];
      historyIndex := |history| - 1;
      if |history| > MaxHistorySize {
        history := history[1..];
        historyIndex := historyIndex - 1;
      }
    }

    /** `this.sequences[key] = d`. */
    method Store(key: string, d: SequenceData)
      modifies this
      ensures State() == PutSequence(old(State()), key, d) && id == old(id)
    {
      if key !in sequences {
        order := order + [key];
      }
      sequences := sequences[key := d];
    }

    /** `delete this.sequences[key]`. */
    method Delete(key: string)
      modifies this
      ensures State() == DeleteKey(old(State()), key) && id == old(id)
    {
      sequences := sequences - {key};
      order := Without(order, key);
    }

    method CreateSequence(options: SequenceOptions, generatedId: string) returns (sequence: SequenceData)
      requires Valid() && generatedId != ""
      modifies this
      ensures Valid() && (State(), sequence) == CreateSequenceStep(old(State()), options, generatedId) && id == old(id)
    {
      ghost var st := State();
      sequence := NewSequence(options, generatedId);
      Store(sequence.id, sequence);
      currentSequenceId := Some(sequence.id);
      AddToHistory(CreateSequenceOp(sequence.id));
      CreateSequenceValid(st, options, generatedId);
    }

    method SetCurrentSequence(sequenceId: string) returns (r: Result<SequenceData, SessionError>)
      requires Valid()
      modifies this
      ensures Valid() && (State(), r) == SetCurrentSequenceStep(old(State()), sequenceId) && id == old(id)
    {
      if sequenceId !in sequences {
        return Err(SequenceNotFound(sequenceId));
      }
      currentSequenceId := Some(sequenceId);
      r := Ok(sequences[sequenceId]);
    }

    method DeleteSequence(sequenceId: string) returns (r: Result<bool, SessionError>)
      requires Valid()
      modifies this
      ensures Valid() && (State(), r) == DeleteSequenceStep(old(State()), sequenceId) && id == old(id)
    {
      ghost var st := State();
      if sequenceId !in sequences {
        return Err(SequenceNotFound(sequenceId));
      }
      var deletedSequence := sequences[sequenceId];
      Delete(sequenceId);
      if currentSequenceId == Some(sequenceId) {
        currentSequenceId := if |order| > 0 then Some(order[0]) else None;
      }
      AddToHistory(DeleteSequenceOp(sequenceId, deletedSequence));
      DeleteSequenceValid(st, sequenceId);
      r := Ok(true);
    }

    method UpdateSequence(sequenceId: string, properties: SequenceProperties) returns (r: Result<SequenceData, SessionError>)
      requires Valid()
      modifies this
      ensures Valid() && (State(), r) == UpdateSequenceStep(old(State()), sequenceId, properties) && id == old(id)
    {
      ghost var st := State();
      if sequenceId !in sequences {
        return Err(SequenceNotFound(sequenceId));
      }
      var previousState := sequences[sequenceId];
      var sequence := Updated(previousState, properties);
      Store(sequenceId, sequence);
      AddToHistory(UpdateSequenceOp(sequenceId, previousState));
      UpdateSequenceValid(st, sequenceId, properties);
      r := Ok(sequence);
    }

    method AddNote(note: MidiNote) returns (r: Result<MidiNote, SessionError>)
      requires Valid()
      modifies this
      ensures Valid() && (State(), r) == AddNoteStep(old(State()), note) && id == old(id)
    {
      ghost var st := State();
      var current := CurrentSequence(State());
      if current.None? {
        return Err(NoCurrentSequence);
      }
      var sequence := current.value;
      Store(currentSequenceId.value, sequence.(notes := sequence.notes + [note]));
      AddToHistory(AddNoteOp(sequence.id, note));
      AddNoteValid(st, note);
      r := Ok(note);
    }

    method AddNotes(notes: seq<MidiNote>) returns (r: Result<seq<MidiNote>, SessionError>)
      requires Valid()
      modifies this
      ensures Valid() && (State(), r) == AddNotesStep(old(State()), notes) && id == old(id)
    {
      ghost var st := State();
      var current := CurrentSequence(State());
      if current.None? {
        return Err(NoCurrentSequence);
      }
      var sequence := current.value;
      Store(currentSequenceId.value, sequence.(notes := sequence.notes + notes));
      AddToHistory(AddNotesOp(sequence.id, notes));
      AddNotesValid(st, notes);
      r := Ok(notes);
    }

    method ClearNotes() returns (r: Result<bool, SessionError>)
      requires Valid()
      modifies this
      ensures Valid() && (State(), r) == ClearNotesStep(old(State())) && id == old(id)
    {
      ghost var st := State();
      var current := CurrentSequence(State());
      if current.None? {
        return Err(NoCurrentSequence);
      }
      var sequence := current.value;
      var previousNotes := sequence.notes;
      Store(currentSequenceId.value, sequence.(notes := []));
      AddToHistory(ClearNotesOp(sequence.id, previousNotes));
      ClearNotesValid(st);
      r := Ok(true);
    }

    method ImportSequence(json: SequenceData, generatedId: string) returns (sequence: SequenceData)
      requires Valid() && generatedId != ""
      modifies this
      ensures Valid() && (State(), sequence) == ImportSequenceStep(old(State()), json, generatedId) && id == old(id)
    {
      ghost var st := State();
      sequence := FromJson(json, generatedId);
      Store(sequence.id, sequence);
      currentSequenceId := Some(sequence.id);
      AddToHistory(ImportSequenceOp(sequence.id));
      ImportSequenceValid(st, json, generatedId);
    }

    /** The note edits of undo and redo, on the sequence stored under
        `key`. */
    method Edit(key: string, e: NoteEdit) returns (r: Result<bool, SessionError>)
      modifies this
      ensures (State(), r) == EditNotes(old(State()), key, e) && id == old(id)
    {
      if key !in sequences {
        return Err(MissingSequence(key));
      }
      var sequence := sequences[key];
      Store(key, sequence.(notes := ApplyEdit(e, sequence.notes)));
      r := Ok(true);
    }

    method Undo(generatedId: string) returns (r: Result<bool, SessionError>)
      requires Valid()
      modifies this
      ensures Valid() && (State(), r) == UndoStep(old(State()), generatedId) && id == old(id)
    {
      ghost var st := State();
      if historyIndex < 0 {
        return Ok(false);
      }
      var operation := history[historyIndex];
      historyIndex := historyIndex - 1;
      r := RevertOperation(operation, generatedId);
      UndoValid(st, generatedId);
    }

    /** The `switch` of undo. */
    method RevertOperation(operation: Operation, generatedId: string) returns (r: Result<bool, SessionError>)
      requires HistoryValid(State())
      modifies this
      ensures (State(), r) == Revert(old(State()), operation, generatedId) && id == old(id)
    {
      match operation {
      case CreateSequenceOp(sequenceId) =>
        Delete(sequenceId);
        currentSequenceId := if historyIndex >= 0 then Some(history[historyIndex].sequenceId) else None;
        r := Ok(true);
      case DeleteSequenceOp(sequenceId, sequence) =>
        Store(sequenceId, FromJson(sequence, generatedId));
        r := Ok(true);
      case UpdateSequenceOp(sequenceId, previousState) =>
        Store(sequenceId, FromJson(previousState, generatedId));
        r := Ok(true);
      case AddNoteOp(sequenceId, _) =>
        r := Edit(sequenceId, PopLast);
      case AddNotesOp(sequenceId, added) =>
        r := Edit(sequenceId, SpliceFrom(|added|));
      case ClearNotesOp(sequenceId, previousNotes) =>
        r := Edit(sequenceId, Restore(previousNotes));
      case ImportSequenceOp(sequenceId) =>
        Delete(sequenceId);
        r := Ok(true);
      }
    }

    method Redo(generatedId: string) returns (r: Result<bool, SessionError>)
      requires Valid()
      modifies this
      ensures Valid() && (State(), r) == RedoStep(old(State()), generatedId) && id == old(id)
    {
      ghost var st := State();
      if historyIndex >= |history| - 1 {
        return Ok(false);
      }
      historyIndex := historyIndex + 1;
      r := ReplayOperation(history[historyIndex], generatedId);
      RedoValid(st, generatedId);
    }

    /** The `switch` of redo. */
    method ReplayOperation(operation: Operation, generatedId: string) returns (r: Result<bool, SessionError>)
      modifies this
      ensures (State(), r) == Replay(old(State()), operation, generatedId) && id == old(id)
    {
      r := Ok(true);
      match operation {
      case CreateSequenceOp(sequenceId) =>
        currentSequenceId := Some(sequenceId);
        if sequenceId !in sequences {
          Store(sequenceId, NewSequence(SequenceOptions(None, None, None, None, Some(sequenceId)), generatedId));
        }
      case DeleteSequenceOp(sequenceId, _) =>
        Delete(sequenceId);
      case UpdateSequenceOp(_, _) =>
      case AddNoteOp(sequenceId, note) =>
        r := Edit(sequenceId, Append([note]));
      case AddNotesOp(sequenceId, added) =>
        r := Edit(sequenceId, Append(added));
      case ClearNotesOp(sequenceId, _) =>
        r := Edit(sequenceId, ClearAll);
      case ImportSequenceOp(_) =>
      }
    }

    /** Session.fromJSON: `generatedId` is the session's fallback id and
        `ids[i]` that of the `i`-th sequence. */
    static method FromSessionJson(json: SessionJson, generatedId: string, ids: seq<string>) returns (session: Session)
      requires |ids| == |json.sequences|
      ensures fresh(session) && (session.id, session.State()) == SessionFromJson(json, generatedId, ids)
    {
      session := new Session(Some(json.id), generatedId);
      var i := 0;
      while i < |json.sequences|
        invariant 0 <= i <= |json.sequences| && fresh(session)
        invariant session.id == StringOr(Some(json.id), generatedId)
        invariant session.State() == LoadSequences(json.sequences, ids, i)
      {
        var sequence := FromJson(json.sequences[i], ids[i]);
        session.Store(sequence.id, sequence);
        i := i + 1;
      }
      session.currentSequenceId := json.currentSequenceId;
    }
  }
}
