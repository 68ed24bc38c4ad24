// The in-memory session registry of src/server/services/sessionService.js:
// a `Map` from session id to session, each session holding a dictionary of
// sequences and a current-sequence pointer. The registry is the class
// `SessionService`; sessions and sequences are values stored in it (the
// source hands out the stored objects themselves, so a caller could change
// them behind the registry's back; that aliasing is not modelled). Ids made
// from `Date.now()` and `Math.random()` are parameters.
module ServerSessionService {
  import opened JsSupport

  /** A note as the client sends it; the registry stores notes unchanged. */
  datatype Note = Note(pitch: int, startTime: real, duration: real, velocity: int, channel: int)

  datatype Sequence = Sequence(
    id: string, name: string, notes: seq<Note>, timeSignature: seq<int>, tempo: int, key: string)

  /** Track records are stored and returned unchanged; an id stands for each. */
  type Track = nat

  datatype Session = Session(
    id: string, name: string, bpm: int, timeSignature: seq<int>,
    sequences: map<string, Sequence>, currentSequenceId: Option<string>, tracks: seq<Track>)

  /** The argument of `createSession`; `None` is an absent field. */
  datatype SessionFields = SessionFields(
    id: Option<string>, name: Option<string>, bpm: Option<int>,
    timeSignature: Option<seq<int>>, tracks: Option<seq<Track>>)

  /** The argument of `updateSession`: each supplied field overwrites the
      session's own (`Object.assign`). */
  datatype SessionUpdate = SessionUpdate(
    id: Option<string>, name: Option<string>, bpm: Option<int>, timeSignature: Option<seq<int>>,
    sequences: Option<map<string, Sequence>>, currentSequenceId: Option<Option<string>>,
    tracks: Option<seq<Track>>)

  /** The argument of `createSequence`. */
  datatype SequenceFields = SequenceFields(
    id: Option<string>, name: Option<string>, notes: Option<seq<Note>>,
    timeSignature: Option<seq<int>>, tempo: Option<int>, key: Option<string>)

  datatype ServiceError =
    | SessionIdRequired
    | SessionExists(existingId: string)
    | SessionNotFound(unknownId: string)
    | NoCurrentSequence

  const DefaultSessionTimeSignature: seq<int> := [4, 4]

  /** The sessions and the insertion order of the `Map`'s keys. */
  datatype Registry = Registry(sessions: map<string, Session>, order: seq<string>)

  const EmptyRegistry := Registry(map[], [])

  /** `order` lists each stored id once. */
  predicate Consistent(reg: Registry) {
    (forall k :: k in reg.order ==> k in reg.sessions) &&
    (forall k :: k in reg.sessions ==> k in reg.order) &&
    NoDuplicates(reg.order)
  }

  // ---------------------------------------------------------------------
  // Sessions

  /** `session_${Date.now()}`. */
  function GeneratedSessionId(now: nat): (id: string)
    ensures |id| > 0
  {
    "session_" + NatToString(now)
  }

  /** The session object `createSession` builds. */
  function NewSession(id: string, data: SessionFields): (s: Session)
    ensures s.id == id && s.sequences == map[] && s.currentSequenceId == None
    ensures s.name == StringOr(data.name, "Untitled Session") && s.bpm == IntOr(data.bpm, 120)
    ensures s.timeSignature == data.timeSignature.GetOr(DefaultSessionTimeSignature)
    ensures s.tracks == data.tracks.GetOr([])
  {
    Session(id, StringOr(data.name, "Untitled Session"), IntOr(data.bpm, 120),
            data.timeSignature.GetOr(DefaultSessionTimeSignature), map[], None, data.tracks.GetOr([]))
  }

  /** createSession: the session's id is `data.id || session_<now>`; an id
      already stored throws. */
  function CreateSessionStep(reg: Registry, data: SessionFields, now: nat): (Registry, Result<Session, ServiceError>) {
    var id := StringOr(data.id, GeneratedSessionId(now));
    if id in reg.sessions then (reg, Err(SessionExists(id)))
    else
      var s := NewSession(id, data);
      (Registry(reg.sessions[id := s], reg.order + [id]), Ok(s))
  }

  /** getSession: an empty id throws, an unknown one gives `null`. */
  function GetSession(reg: Registry, sessionId: string): (r: Result<Option<Session>, ServiceError>)
    ensures sessionId == "" <==> r == Err(SessionIdRequired)
    ensures sessionId != "" ==> (r == Ok(None) <==> sessionId !in reg.sessions)
    ensures sessionId != "" && sessionId in reg.sessions ==> r == Ok(Some(reg.sessions[sessionId]))
  {
    if sessionId == "" then Err(SessionIdRequired)
    else if sessionId in reg.sessions then Ok(Some(reg.sessions[sessionId]))
    else Ok(None)
  }

  /** getAllSessions: the stored sessions in insertion order. */
  function AllSessions(order: seq<string>, sessions: map<string, Session>): (r: seq<Session>)
    requires forall k :: k in order ==> k in sessions
    ensures |r| == |order| && forall i :: 0 <= i < |order| ==> r[i] == sessions[order[i]]
  {
    if |order| == 0 then []
    else [sessions[order[0]]] + AllSessions(order[1..], sessions)
  }

  /** `Object.assign(session, update)`. */
  function Assign(s: Session, u: SessionUpdate): (r: Session)
    ensures u.id.None? ==> r.id == s.id
    ensures u.id.Some? ==> r.id == u.id.value
    ensures u.name.None? ==> r.name == s.name
    ensures u.name.Some? ==> r.name == u.name.value
    ensures u.bpm.None? ==> r.bpm == s.bpm
    ensures u.bpm.Some? ==> r.bpm == u.bpm.value
    ensures u.timeSignature.None? ==> r.timeSignature == s.timeSignature
    ensures u.timeSignature.Some? ==> r.timeSignature == u.timeSignature.value
    ensures u.sequences.None? ==> r.sequences == s.sequences
    ensures u.sequences.Some? ==> r.sequences == u.sequences.value
    ensures u.currentSequenceId.None? ==> r.currentSequenceId == s.currentSequenceId
    ensures u.currentSequenceId.Some? ==> r.currentSequenceId == u.currentSequenceId.value
    ensures u.tracks.None? ==> r.tracks == s.tracks
    ensures u.tracks.Some? ==> r.tracks == u.tracks.value
  {
    Session(u.id.GetOr(s.id), u.name.GetOr(s.name), u.bpm.GetOr(s.bpm), u.timeSignature.GetOr(s.timeSignature),
            u.sequences.GetOr(s.sequences), u.currentSequenceId.GetOr(s.currentSequenceId), u.tracks.GetOr(s.tracks))
  }

  const NoUpdate := SessionUpdate(None, None, None, None, None, None, None)

  /** Applying the same update twice is applying it once, and the empty
      update changes nothing. */
  lemma AssignIdempotent(s: Session, u: SessionUpdate)
    ensures Assign(Assign(s, u), u) == Assign(s, u)
    ensures Assign(s, NoUpdate) == s
  {
  }

  /** updateSession: an empty id throws, an unknown id gives `null` and
      changes nothing; otherwise the stored session takes the supplied
      fields, in place (its key is kept even when `id` is overwritten). */
  function UpdateSessionStep(reg: Registry, sessionId: string, u: SessionUpdate): (Registry, Result<Option<Session>, ServiceError>) {
    if sessionId == "" then (reg, Err(SessionIdRequired))
    else if sessionId !in reg.sessions then (reg, Ok(None))
    else
      var s := Assign(reg.sessions[sessionId], u);
      (reg.(sessions := reg.sessions[sessionId := s]), Ok(Some(s)))
  }

  /** deleteSession: an empty id throws; otherwise reports whether the id
      was stored. */
  function DeleteSessionStep(reg: Registry, sessionId: string): (Registry, Result<bool, ServiceError>) {
    if sessionId == "" then (reg, Err(SessionIdRequired))
    else (Registry(reg.sessions - {sessionId}, Without(reg.order, sessionId)), Ok(sessionId in reg.sessions))
  }

  // ---------------------------------------------------------------------
  // Sequences

  /** The session `createSequence`, `getSequence` and `addNotes` act on:
      `getSession(id)`, with `null` turned into a thrown "not found". */
  function FindSession(reg: Registry, sessionId: string): (r: Result<Session, ServiceError>)
    ensures r.Ok? <==> sessionId != "" && sessionId in reg.sessions
    ensures r.Ok? ==> r.value == reg.sessions[sessionId]
    ensures sessionId == "" ==> r == Err(SessionIdRequired)
    ensures sessionId != "" && sessionId !in reg.sessions ==> r == Err(SessionNotFound(sessionId))
  {
    match GetSession(reg, sessionId)
    case Err(e) => Err(e)
    case Ok(None) => Err(SessionNotFound(sessionId))
    case Ok(Some(s)) => Ok(s)
  }

  /** The sequence object `createSequence` builds; tempo and time signature
      default to the session's. */
  function NewSequence(session: Session, data: SequenceFields, generatedId: string): (q: Sequence)
    ensures q.id == StringOr(data.id, generatedId) && q.name == StringOr(data.name, "Untitled Sequence")
    ensures q.notes == data.notes.GetOr([]) && q.key == StringOr(data.key, "C major")
    ensures q.timeSignature == data.timeSignature.GetOr(session.timeSignature)
    ensures q.tempo == IntOr(data.tempo, session.bpm)
  {
    Sequence(StringOr(data.id, generatedId), StringOr(data.name, "Untitled Sequence"), data.notes.GetOr([]),
             data.timeSignature.GetOr(session.timeSignature), IntOr(data.tempo, session.bpm),
             StringOr(data.key, "C major"))
  }

  /** createSequence: stores the new sequence in the session and makes it
      current; `generatedId` stands for the `seq_…` id. */
  function CreateSequenceStep(reg: Registry, sessionId: string, data: SequenceFields, generatedId: string)
    : (Registry, Result<Sequence, ServiceError>)
  {
    match FindSession(reg, sessionId)
    case Err(e) => (reg, Err(e))
    case Ok(s) =>
      var q := NewSequence(s, data, generatedId);
      var s2 := s.(sequences := s.sequences[q.id := q], currentSequenceId := Some(q.id));
      (reg.(sessions := reg.sessions[sessionId := s2]), Ok(q))
  }

  /** getSequence: `null` for a sequence id the session does not hold. */
  function GetSequence(reg: Registry, sessionId: string, sequenceId: string): (r: Result<Option<Sequence>, ServiceError>)
    ensures FindSession(reg, sessionId).Err? <==> r.Err?
    ensures r.Ok? ==> (r.value.Some? <==> sequenceId in reg.sessions[sessionId].sequences)
    ensures r.Ok? && r.value.Some? ==> r.value.value == reg.sessions[sessionId].sequences[sequenceId]
  {
    match FindSession(reg, sessionId)
    case Err(e) => Err(e)
    case Ok(s) => if sequenceId in s.sequences then Ok(Some(s.sequences[sequenceId])) else Ok(None)
  }

  /** The id of the session's current sequence, when it is set, non-empty
      and stored. */
  function CurrentSequenceId(s: Session): (r: Option<string>)
    ensures r.Some? ==> r.value != "" && r.value in s.sequences && s.currentSequenceId == r
  {
    match s.currentSequenceId
    case Some(id) => if id != "" && id in s.sequences then Some(id) else None
    case None => None
  }

  /** addNotes: the notes are appended to the current sequence. */
  function AddNotesStep(reg: Registry, sessionId: string, notes: seq<Note>): (Registry, Result<Sequence, ServiceError>) {
    match FindSession(reg, sessionId)
    case Err(e) => (reg, Err(e))
    case Ok(s) =>
      match CurrentSequenceId(s)
      case None => (reg, Err(NoCurrentSequence))
      case Some(cid) =>
        var q := s.sequences[cid].(notes := s.sequences[cid].notes + notes);
        var s2 := s.(sequences := s.sequences[cid := q]);
        (reg.(sessions := reg.sessions[sessionId := s2]), Ok(q))
  }

  // ---------------------------------------------------------------------
  // Properties

  /** createSession fails exactly on a stored id; otherwise the new session
      goes last and every other session is unchanged. */
  lemma CreateSessionContract(reg: Registry, data: SessionFields, now: nat)
    requires Consistent(reg)
    ensures var id := StringOr(data.id, GeneratedSessionId(now));
      var (reg2, r) := CreateSessionStep(reg, data, now);
      Consistent(reg2) &&
      (r.Err? <==> id in reg.sessions) &&
      (r.Err? ==> reg2 == reg && r.error == SessionExists(id)) &&
      (r.Ok? ==> r.value == NewSession(id, data) && reg2.sessions == reg.sessions[id := r.value] &&
                 reg2.order == reg.order + [id] && GetSession(reg2, id) == Ok(Some(r.value)))
  {
  }

  /** updateSession changes at most the named session, only in the supplied
      fields, and keeps the registry's keys. */
  lemma UpdateSessionContract(reg: Registry, sessionId: string, u: SessionUpdate)
    requires Consistent(reg)
    ensures var (reg2, r) := UpdateSessionStep(reg, sessionId, u);
      Consistent(reg2) && reg2.order == reg.order && reg2.sessions.Keys == reg.sessions.Keys &&
      (r == Ok(None) ==> reg2 == reg) &&
      (forall k :: k in reg.sessions && k != sessionId ==> reg2.sessions[k] == reg.sessions[k]) &&
      (r.Ok? && r.value.Some? ==> reg2.sessions[sessionId] == Assign(reg.sessions[sessionId], u) == r.value.value)
  {
  }

  /** deleteSession reports whether the id was stored, and afterwards it is
      not; the other sessions keep their order. */
  lemma DeleteSessionContract(reg: Registry, sessionId: string)
    requires Consistent(reg) && sessionId != ""
    ensures var (reg2, r) := DeleteSessionStep(reg, sessionId);
      Consistent(reg2) && r == Ok(sessionId in reg.sessions) &&
      GetSession(reg2, sessionId) == Ok(None) &&
      (forall k :: k in reg.sessions && k != sessionId ==> k in reg2.sessions && reg2.sessions[k] == reg.sessions[k])
  {
    WithoutNoDuplicates(reg.order, sessionId);
  }

  /** Creating and then deleting a session restores the registry. */
  lemma CreateThenDelete(reg: Registry, data: SessionFields, now: nat)
    requires Consistent(reg)
    requires CreateSessionStep(reg, data, now).1.Ok?
    ensures var (reg2, r) := CreateSessionStep(reg, data, now);
      DeleteSessionStep(reg2, r.value.id).0 == reg
  {
    var id := StringOr(data.id, GeneratedSessionId(now));
    WithoutAbsent(reg.order, id);
    assert reg.sessions[id := NewSession(id, data)] - {id} == reg.sessions;
  }

  /** createSequence adds the sequence to the named session only, under its
      own id, makes it current, and `getSequence` then finds it. */
  lemma CreateSequenceContract(reg: Registry, sessionId: string, data: SequenceFields, generatedId: string)
    requires Consistent(reg)
    ensures var (reg2, r) := CreateSequenceStep(reg, sessionId, data, generatedId);
      Consistent(reg2) && reg2.order == reg.order &&
      (r.Err? <==> FindSession(reg, sessionId).Err?) &&
      (r.Err? ==> reg2 == reg && r.error == FindSession(reg, sessionId).error) &&
      (forall k :: k in reg.sessions && k != sessionId ==> reg2.sessions[k] == reg.sessions[k]) &&
      (r.Ok? ==> r.value == NewSequence(reg.sessions[sessionId], data, generatedId) &&
                 reg2.sessions[sessionId].currentSequenceId == Some(r.value.id) &&
                 GetSequence(reg2, sessionId, r.value.id) == Ok(Some(r.value)))
  {
  }

  /** addNotes appends to the current sequence of the named session and
      changes nothing else; without a current sequence it throws and
      changes nothing. */
  lemma AddNotesContract(reg: Registry, sessionId: string, notes: seq<Note>)
    requires Consistent(reg)
    ensures var (reg2, r) := AddNotesStep(reg, sessionId, notes);
      Consistent(reg2) && reg2.order == reg.order &&
      (r.Err? ==> reg2 == reg) &&
      ((FindSession(reg, sessionId).Ok? && CurrentSequenceId(reg.sessions[sessionId]).None?) ==>
         r == Err(NoCurrentSequence)) &&
      (forall k :: k in reg.sessions && k != sessionId ==> reg2.sessions[k] == reg.sessions[k]) &&
      (r.Ok? ==>
        var s := reg.sessions[sessionId];
        var cid := CurrentSequenceId(s).value;
        reg2.sessions[sessionId] == s.(sequences := s.sequences[cid := r.value]) &&
        r.value == s.sequences[cid].(notes := s.sequences[cid].notes + notes))
  {
  }

  /** Adding notes in two calls is adding them in one. */
  lemma AddNotesTwice(reg: Registry, sessionId: string, a: seq<Note>, b: seq<Note>)
    requires AddNotesStep(reg, sessionId, a).1.Ok?
    ensures AddNotesStep(AddNotesStep(reg, sessionId, a).0, sessionId, b) == AddNotesStep(reg, sessionId, a + b)
  {
    var s := reg.sessions[sessionId];
    var cid := CurrentSequenceId(s).value;
    var q := s.sequences[cid];
    var s2 := s.(sequences := s.sequences[cid := q.(notes := q.notes + a)]);
    var reg2 := reg.(sessions := reg.sessions[sessionId := s2]);
    assert AddNotesStep(reg, sessionId, a).0 == reg2;
    assert FindSession(reg2, sessionId) == Ok(s2);
    assert CurrentSequenceId(s2) == Some(cid);
    assert (q.notes + a) + b == q.notes + (a + b);
    var q3 := q.(notes := q.notes + (a + b));
    assert s2.sequences[cid].(notes := s2.sequences[cid].notes + b) == q3;
    var s3 := s.(sequences := s.sequences[cid := q3]);
    assert s2.(sequences := s2.sequences[cid := q3]) == s3;
    assert reg2.sessions[sessionId := s3] == reg.sessions[sessionId := s3];
    assert AddNotesStep(reg2, sessionId, b) == (reg.(sessions := reg.sessions[sessionId := s3]), Ok(q3));
  }

  // ---------------------------------------------------------------------
  // The service object

  class SessionService {
    var sessions: map<string, Session>
    /** The insertion order of the `Map`. */
    var order: seq<string>

    function State(): Registry
      reads this
    {
      Registry(sessions, order)
    }

    predicate Valid()
      reads this
    {
      Consistent(State())
    }

    constructor()
      ensures Valid() && State() == EmptyRegistry
    {
      sessions := map[];
      order := [];
    }

    method CreateSession(data: SessionFields, now: nat) returns (r: Result<Session, ServiceError>)
      requires Valid()
      modifies this
      ensures Valid() && (State(), r) == CreateSessionStep(old(State()), data, now)
    {
      CreateSessionContract(State(), data, now);
      var sessionId := StringOr(data.id, GeneratedSessionId(now));
      if sessionId in sessions {
        return Err(SessionExists(sessionId));
      }
      var session := NewSession(sessionId, data);
      sessions := sessions[sessionId := session];
      order := order + [sessionId];
      r := Ok(session);
    }

    method UpdateSession(sessionId: string, u: SessionUpdate) returns (r: Result<Option<Session>, ServiceError>)
      requires Valid()
      modifies this
      ensures Valid() && (State(), r) == UpdateSessionStep(old(State()), sessionId, u)
    {
      UpdateSessionContract(State(), sessionId, u);
      if sessionId == "" {
        return Err(SessionIdRequired);
      }
      if sessionId !in sessions {
        return Ok(None);
      }
      var session := Assign(sessions[sessionId], u);
      sessions := sessions[sessionId := session];
      r := Ok(Some(session));
    }

    method DeleteSession(sessionId: string) returns (r: Result<bool, ServiceError>)
      requires Valid()
      modifies this
      ensures Valid() && (State(), r) == DeleteSessionStep(old(State()), sessionId)
    {
      if sessionId == "" {
        return Err(SessionIdRequired);
      }
      DeleteSessionContract(State(), sessionId);
      r := Ok(sessionId in sessions);
      sessions := sessions - {sessionId};
      order := Without(order, sessionId);
    }

    method CreateSequence(sessionId: string, data: SequenceFields, generatedId: string)
      returns (r: Result<Sequence, ServiceError>)
      requires Valid()
      modifies this
      ensures Valid() && (State(), r) == CreateSequenceStep(old(State()), sessionId, data, generatedId)
    {
      CreateSequenceContract(State(), sessionId, data, generatedId);
      var found := FindSession(State(), sessionId);
      if found.Err? {
        return Err(found.error);
      }
      var session := found.value;
      var sequence := NewSequence(session, data, generatedId);
      session := session.(sequences := session.sequences[sequence.id := sequence]);
      session := session.(currentSequenceId := Some(sequence.id));
      sessions := sessions[sessionId := session];
      r := Ok(sequence);
    }

    method AddNotes(sessionId: string, notes: seq<Note>) returns (r: Result<Sequence, ServiceError>)
      requires Valid()
      modifies this
      ensures Valid() && (State(), r) == AddNotesStep(old(State()), sessionId, notes)
    {
      AddNotesContract(State(), sessionId, notes);
      var found := FindSession(State(), sessionId);
      if found.Err? {
        return Err(found.error);
      }
      var session := found.value;
      var cid := CurrentSequenceId(session);
      if cid.None? {
        return Err(NoCurrentSequence);
      }
      var current := session.sequences[cid.value];
      current := current.(notes := current.notes + notes);
      session := session.(sequences := session.sequences[cid.value := current]);
      sessions := sessions[sessionId := session];
      r := Ok(current);
    }
  }
}
