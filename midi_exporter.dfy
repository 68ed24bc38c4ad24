// midi-exporter.js: a sequence becomes one midi-writer-js track holding a
// tempo event, an optional time-signature event, and per channel a program
// change followed by that channel's notes in start-time order. The model
// stops at the list of events handed to the library; writing the file and
// the Buffer around it are not modelled.
module MidiExporter {
  import opened JsSupport
  import opened Sorting

  // ---------------------------------------------------------------------
  // durationToTicks

  /** The note values midi-writer-js names "w", "h", "q", "8", "16" and
      "32". */
  datatype NoteValue = Whole | Half | Quarter | Eighth | Sixteenth | ThirtySecond {
    /** The duration string the library reads. */
    function Name(): string {
      match this
      case Whole => "w"
      case Half => "h"
      case Quarter => "q"
      case Eighth => "8"
      case Sixteenth => "16"
      case ThirtySecond => "32"
    }

    /** The length in beats. */
    function Beats(): real {
      match this
      case Whole => 4.0
      case Half => 2.0
      case Quarter => 1.0
      case Eighth => 0.5
      case Sixteenth => 0.25
      case ThirtySecond => 0.125
    }
  }

  /** durationToTicks: the longest of the note values w, h, q, 8 and 16 that
      fits in the duration, and 32 below a sixteenth. */
  function DurationToTicks(duration: real): NoteValue {
    if duration >= 4.0 then Whole
    else if duration >= 2.0 then Half
    else if duration >= 1.0 then Quarter
    else if duration >= 0.5 then Eighth
    else if duration >= 0.25 then Sixteenth
    else ThirtySecond
  }

  /** The value chosen fits in the duration from a sixteenth up, and is more
      than half of any duration below a whole note; 32 is chosen exactly
      below a sixteenth. */
  lemma DurationToTicksContract(duration: real)
    ensures duration >= 0.25 ==> DurationToTicks(duration).Beats() <= duration
    ensures duration < 4.0 ==> duration < 2.0 * DurationToTicks(duration).Beats()
    ensures duration < 0.25 <==> DurationToTicks(duration) == ThirtySecond
  {
  }

  /** The names are distinct, so the string the library receives
      determines the note value. */
  lemma NoteValueNamesDistinct(a: NoteValue, b: NoteValue)
    requires a.Name() == b.Name()
    ensures a == b
  {
  }

  /** A longer duration never gets a shorter note value. */
  lemma DurationMonotone(a: real, b: real)
    requires a <= b
    ensures DurationToTicks(a).Beats() <= DurationToTicks(b).Beats()
  {
  }

  // ---------------------------------------------------------------------
  // Grouping the notes by channel

  datatype Note = Note(pitch: int, startTime: real, duration: real, velocity: Option<int>, channel: Option<int>)

  /** `note.channel || 0`. */
  function ChannelOf(n: Note): int {
    IntOr(n.channel, 0)
  }

  function StartTime(n: Note): real {
    n.startTime
  }

  function ChannelList(notes: seq<Note>): (r: seq<int>)
    ensures |r| == |notes| && forall i :: 0 <= i < |notes| ==> r[i] == ChannelOf(notes[i])
  {
    if |notes| == 0 then [] else ChannelList(notes[..|notes| - 1]) + [ChannelOf(notes[|notes| - 1])]
  }

  /** The notes on channel `c`, in their original order. */
  function GroupOf(notes: seq<Note>, c: int): (r: seq<Note>)
    ensures |r| <= |notes|
  {
    if |notes| == 0 then []
    else
      var last := notes[|notes| - 1];
      GroupOf(notes[..|notes| - 1], c) + (if ChannelOf(last) == c then [last] else [])
  }

  /** A note is in the group of its own channel. */
  lemma {:induction false} GroupOfContains(notes: seq<Note>, i: nat)
    requires i < |notes|
    ensures notes[i] in GroupOf(notes, ChannelOf(notes[i]))
  {
    var n := |notes| - 1;
    if i < n {
      GroupOfContains(notes[..n], i);
    }
  }

  /** Every note of a group is on the group's channel. */
  lemma {:induction false} GroupOfChannel(notes: seq<Note>, c: int, k: nat)
    requires k < |GroupOf(notes, c)|
    ensures ChannelOf(GroupOf(notes, c)[k]) == c
  {
    var n := |notes| - 1;
    var init := GroupOf(notes[..n], c);
    if k < |init| {
      GroupOfChannel(notes[..n], c, k);
      assert GroupOf(notes, c)[k] == init[k];
    }
  }

  /** A group entry of `channelNotes`: `[]` for a channel with no entry. */
  function Group(groups: map<int, seq<Note>>, c: int): seq<Note> {
    if c in groups then groups[c] else []
  }

  /** `channelNotes` after one more note: a new channel gets `[]` first,
      then the note is pushed onto its channel's array. */
  function FileNote(groups: map<int, seq<Note>>, n: Note): map<int, seq<Note>> {
    var c := ChannelOf(n);
    var g := if c in groups then groups else groups[c := []];
    g[c := g[c] + [n]]
  }

  /** The keys of `channelNotes` in insertion order, and the object itself,
      after the notes `ns`. */
  function ChannelNotes(ns: seq<Note>): (seq<int>, map<int, seq<Note>>) {
    if |ns| == 0 then ([], map[])
    else
      var (keys, groups) := ChannelNotes(ns[..|ns| - 1]);
      var n := ns[|ns| - 1];
      (if ChannelOf(n) in groups then keys else keys + [ChannelOf(n)], FileNote(groups, n))
  }

  /** Each entry of `channelNotes` holds exactly the notes of its channel, in
      their original order. */
  lemma {:induction false} ChannelNotesGroup(ns: seq<Note>, c: int)
    ensures Group(ChannelNotes(ns).1, c) == GroupOf(ns, c)
  {
    if |ns| > 0 {
      var init := ns[..|ns| - 1];
      ChannelNotesGroup(init, c);
    }
  }

  /** The keys of `channelNotes` are the channels used, each once, in order
      of first use, and they are the object's keys. */
  lemma {:induction false} ChannelNotesKeys(ns: seq<Note>)
    ensures ChannelNotes(ns).0 == Dedup(ChannelList(ns))
    ensures forall c :: c in ChannelNotes(ns).1 <==> c in ChannelNotes(ns).0
  {
    if |ns| > 0 {
      var init := ns[..|ns| - 1];
      ChannelNotesKeys(init);
      assert ChannelList(ns) == ChannelList(init) + [ChannelOf(ns[|ns| - 1])];
    }
  }

  /** Fills `channelNotes` as the first loop of `sequenceToMidiFile` does. */
  method GroupNotes(notes: seq<Note>) returns (keys: seq<int>, groups: map<int, seq<Note>>)
    ensures (keys, groups) == ChannelNotes(notes)
  {
    keys := [];
    groups := map[];
    var i := 0;
    while i < |notes|
      invariant 0 <= i <= |notes|
      invariant (keys, groups) == ChannelNotes(notes[..i])
    {
      var note := notes[i];
      var channel := ChannelOf(note);
      assert notes[..i + 1][..i] == notes[..i];
      if channel !in groups {
        groups := groups[channel := []];
        keys := keys + [channel];
      }
      groups := groups[channel := groups[channel] + [note]];
      i := i + 1;
    }
    assert notes[..i] == notes;
  }

  // ---------------------------------------------------------------------
  // Events

  /** The events the source adds to its one track. */
  datatype Event =
    | Tempo(bpm: int)
    | TimeSignature(numerator: Option<int>, denominator: Option<int>)
    | ProgramChange(instrument: int, channel: int)
    | NoteEvent(pitch: int, duration: NoteValue, velocity: int, channel: int, delta: Option<int>)

  /** The program change opening channel `c`'s notes: instrument 0 on MIDI
      channel 10 for the drum channel 9, otherwise instrument 32 (bass) on
      channel 1 and 0 (piano) elsewhere, on MIDI channel `c + 1`. */
  function ProgramChangeFor(c: int): (e: Event)
    ensures e.ProgramChange? && e.channel == c + 1
    ensures 0 <= c < 16 ==> 1 <= e.channel <= 16
  {
    if c == 9 then ProgramChange(0, 10)
    else ProgramChange(if c == 1 then 32 else 0, c + 1)
  }

  /** The note event for `n` on channel `c`: velocity `|| 100`, and a delta
      of the start time in 128-tick beats (rounded) when the note starts
      after 0. */
  function NoteEventFor(n: Note, c: int): Event {
    NoteEvent(n.pitch, DurationToTicks(n.duration), IntOr(n.velocity, 100), c + 1,
              if n.startTime > 0.0 then Some(JsRound(n.startTime * 128.0)) else None)
  }

  /** A note event keeps the pitch, plays on MIDI channel `c + 1` with a
      nonzero velocity (100 when the note has none), and has a delta exactly
      when the note starts after 0: the start time in 128-tick beats,
      rounded to the nearest tick. */
  lemma NoteEventFields(n: Note, c: int)
    ensures var e := NoteEventFor(n, c);
      e.pitch == n.pitch && e.channel == c + 1 && e.velocity != 0 &&
      (n.velocity.None? ==> e.velocity == 100) &&
      (e.delta.Some? <==> n.startTime > 0.0)
    ensures var e := NoteEventFor(n, c);
      e.delta.Some? ==> (e.delta.value >= 0 &&
        e.delta.value as real - 0.5 <= n.startTime * 128.0 < e.delta.value as real + 0.5)
  {
  }

  function NoteEvents(ns: seq<Note>, c: int): (r: seq<Event>)
    ensures |r| == |ns|
  {
    if |ns| == 0 then [] else NoteEvents(ns[..|ns| - 1], c) + [NoteEventFor(ns[|ns| - 1], c)]
  }

  /** One note event per note, in the notes' order. */
  lemma {:induction false} NoteEventsAt(ns: seq<Note>, c: int, k: nat)
    requires k < |ns|
    ensures NoteEvents(ns, c)[k] == NoteEventFor(ns[k], c)
  {
    var n := |ns| - 1;
    if k < n {
      NoteEventsAt(ns[..n], c, k);
      assert ns[..n][k] == ns[k];
    }
  }

  /** What one entry of `channelNotes` contributes: the program change, then
      the notes sorted by start time. */
  function ChannelBlock(c: int, group: seq<Note>): seq<Event> {
    [ProgramChangeFor(c)] + NoteEvents(SortBy(group, StartTime), c)
  }

  /** The blocks of the channels `keys`, in that order. */
  function BlockList(keys: seq<int>, groups: map<int, seq<Note>>): (r: seq<seq<Event>>)
    ensures |r| == |keys|
  {
    seq(|keys|, i requires 0 <= i < |keys| => ChannelBlock(keys[i], Group(groups, keys[i])))
  }

  lemma BlockListAt(keys: seq<int>, groups: map<int, seq<Note>>, j: nat)
    requires j < |keys|
    ensures BlockList(keys, groups)[j] == ChannelBlock(keys[j], Group(groups, keys[j]))
  {
  }

  lemma BlockListSnoc(keys: seq<int>, groups: map<int, seq<Note>>, i: nat)
    requires i < |keys|
    ensures BlockList(keys[..i + 1], groups) == BlockList(keys[..i], groups) + [ChannelBlock(keys[i], Group(groups, keys[i]))]
  {
    var a := BlockList(keys[..i + 1], groups);
    var b := BlockList(keys[..i], groups) + [ChannelBlock(keys[i], Group(groups, keys[i]))];
    assert forall k :: 0 <= k < |a| ==> a[k] == b[k];
  }

  lemma ConcatSnoc(blocks: seq<seq<Event>>, block: seq<Event>)
    ensures Concat(blocks + [block]) == Concat(blocks) + block
  {
    assert (blocks + [block])[..|blocks|] == blocks;
  }

  /** The events of the blocks, one block after the other. */
  function Concat(blocks: seq<seq<Event>>): seq<Event> {
    if |blocks| == 0 then [] else Concat(blocks[..|blocks| - 1]) + blocks[|blocks| - 1]
  }

  /** An event of one block is an event of the whole list. */
  lemma {:induction false} ConcatContains(blocks: seq<seq<Event>>, j: nat, e: Event)
    requires j < |blocks| && e in blocks[j]
    ensures e in Concat(blocks)
  {
    var n := |blocks| - 1;
    if j < n {
      ConcatContains(blocks[..n], j, e);
    }
  }

  function Blocks(keys: seq<int>, groups: map<int, seq<Note>>): seq<Event> {
    Concat(BlockList(keys, groups))
  }

  /** A block starts with its channel's program change, and its note events
      follow a start-time ordering of the group. */
  lemma ChannelBlockShape(c: int, group: seq<Note>, k: nat)
    requires k < |group|
    ensures var block := ChannelBlock(c, group);
      var sorted := SortBy(group, StartTime);
      |block| == 1 + |group| && block[0] == ProgramChangeFor(c) &&
      block[k + 1] == NoteEventFor(sorted[k], c)
  {
    var sorted := SortBy(group, StartTime);
    var events := NoteEvents(sorted, c);
    NoteEventsAt(sorted, c, k);
    assert ([ProgramChangeFor(c)] + events)[k + 1] == events[k];
  }

  /** The tick a note event is placed at: its delta, 0 when it has none. */
  function EventTicks(e: Event): int {
    if e.NoteEvent? && e.delta.Some? then e.delta.value else 0
  }

  /** Within a block the note events never move back in time. */
  lemma BlockMovesForward(c: int, group: seq<Note>, k1: nat, k2: nat)
    requires k1 <= k2 < |group|
    ensures EventTicks(ChannelBlock(c, group)[k1 + 1]) <= EventTicks(ChannelBlock(c, group)[k2 + 1])
  {
    var sorted := SortBy(group, StartTime);
    ChannelBlockShape(c, group, k1);
    ChannelBlockShape(c, group, k2);
    assert StartTime(sorted[k1]) <= StartTime(sorted[k2]);
    NoteEventFields(sorted[k1], c);
    NoteEventFields(sorted[k2], c);
  }

  // ---------------------------------------------------------------------
  // sequenceToMidiFile

  /** The `numerator` and `denominator` fields of a truthy `timeSignature`
      (an array has neither). */
  datatype TimeSignatureFields = TimeSignatureFields(numerator: Option<int>, denominator: Option<int>)

  /** The fields of the sequence the exporter reads; `notes` is `None` when
      missing or not an array, and `timeSignature` when falsy. */
  datatype Sequence = Sequence(tempo: Option<int>, timeSignature: Option<TimeSignatureFields>, notes: Option<seq<Note>>)

  /** The tempo event and, when there is a time signature, its event. */
  function Header(s: Sequence): (r: seq<Event>)
    ensures 1 <= |r| <= 2 && r[0].Tempo? && r[0].bpm != 0
    ensures |r| == 2 <==> s.timeSignature.Some?
  {
    [Tempo(IntOr(s.tempo, 120))] +
    (if s.timeSignature.Some? then [TimeSignature(s.timeSignature.value.numerator, s.timeSignature.value.denominator)] else [])
  }

  /** The events of the exported track. */
  function TrackEvents(s: Sequence): seq<Event> {
    Header(s) +
    if s.notes.None? then []
    else
      var grouped := ChannelNotes(s.notes.value);
      Blocks(EntryKeys(grouped.0), grouped.1)
  }

  /** Every note of the sequence is exported, on MIDI channel `channel + 1`. */
  lemma SequenceExportKeepsNotes(s: Sequence, i: nat)
    requires s.notes.Some? && i < |s.notes.value|
    ensures NoteEventFor(s.notes.value[i], ChannelOf(s.notes.value[i])) in TrackEvents(s)
  {
    var notes := s.notes.value;
    var n := notes[i];
    var c := ChannelOf(n);
    var grouped := ChannelNotes(notes);
    var keys, groups := grouped.0, grouped.1;
    var entries := EntryKeys(keys);
    ChannelNotesKeys(notes);
    DedupMembers(ChannelList(notes));
    assert ChannelList(notes)[i] == c;
    assert c in keys;
    EntryKeysPermutation(keys);
    var j :| 0 <= j < |entries| && entries[j] == c;
    ChannelNotesGroup(notes, c);
    GroupOfContains(notes, i);
    NoteInBlock(c, Group(groups, c), n);
    BlockListAt(entries, groups, j);
    ConcatContains(BlockList(entries, groups), j, NoteEventFor(n, c));
  }

  /** A note of a group has its event in the group's block. */
  lemma NoteInBlock(c: int, group: seq<Note>, n: Note)
    requires n in group
    ensures NoteEventFor(n, c) in ChannelBlock(c, group)
  {
    var sorted := SortBy(group, StartTime);
    assert n in multiset(group);
    var k :| 0 <= k < |sorted| && sorted[k] == n;
    ChannelBlockShape(c, group, k);
  }

  /** Only notes of the sequence are exported, each on the channel of the
      block it sits in. */
  lemma BlockNotesOfChannel(s: Sequence, c: int, k: nat)
    requires s.notes.Some?
    requires k < |Group(ChannelNotes(s.notes.value).1, c)|
    ensures var sorted := SortBy(Group(ChannelNotes(s.notes.value).1, c), StartTime);
      sorted[k] in s.notes.value && ChannelOf(sorted[k]) == c
  {
    var notes := s.notes.value;
    ChannelNotesGroup(notes, c);
    var group := GroupOf(notes, c);
    var sorted := SortBy(group, StartTime);
    assert sorted[k] in multiset(group);
    var m :| 0 <= m < |group| && group[m] == sorted[k];
    GroupOfChannel(notes, c, m);
    GroupOfSubset(notes, c, m);
  }

  lemma {:induction false} GroupOfSubset(notes: seq<Note>, c: int, k: nat)
    requires k < |GroupOf(notes, c)|
    ensures GroupOf(notes, c)[k] in notes
  {
    var n := |notes| - 1;
    var init := GroupOf(notes[..n], c);
    if k < |init| {
      GroupOfSubset(notes[..n], c, k);
      assert GroupOf(notes, c)[k] == init[k];
    } else {
      assert GroupOf(notes, c)[k] == notes[n];
    }
  }

  /** The program change and note events of one channel, as the second loop
      of `sequenceToMidiFile` adds them after sorting the channel's array. */
  method ChannelToEvents(c: int, group: seq<Note>) returns (events: seq<Event>)
    ensures events == ChannelBlock(c, group)
  {
    var instrument := 0;
    if c == 9 {
      events := [ProgramChange(0, 10)];
    } else {
      if c == 1 {
        instrument := 32;
      }
      events := [ProgramChange(instrument, c + 1)];
    }
    var sorted := SortBy(group, StartTime);
    var notes := NotesToEvents(sorted, c);
    events := events + notes;
  }

  /** The note events of one channel, in the order of `ns`. */
  method NotesToEvents(ns: seq<Note>, c: int) returns (events: seq<Event>)
    ensures events == NoteEvents(ns, c)
  {
    events := [];
    var i := 0;
    while i < |ns|
      invariant 0 <= i <= |ns|
      invariant events == NoteEvents(ns[..i], c)
    {
      assert ns[..i + 1][..i] == ns[..i];
      var note := ns[i];
      var delta: Option<int> := None;
      if note.startTime > 0.0 {
        delta := Some(JsRound(note.startTime * 128.0));
      }
      events := events + [NoteEvent(note.pitch, DurationToTicks(note.duration), IntOr(note.velocity, 100), c + 1, delta)];
      i := i + 1;
    }
    assert ns[..i] == ns;
  }

  /** The body of `if (sequence.notes && Array.isArray(sequence.notes))`:
      group the notes, then add each entry's events. */
  method NotesToTrack(notes: seq<Note>) returns (body: seq<Event>)
    ensures body == Blocks(EntryKeys(ChannelNotes(notes).0), ChannelNotes(notes).1)
  {
    var keys, groups := GroupNotes(notes);
    ChannelNotesKeys(notes);
    var entries := EntryKeys(keys);
    EntryKeysPermutation(keys);
    assert forall k :: 0 <= k < |entries| ==> entries[k] in entries;
    body := EntriesToEvents(entries, groups);
  }

  /** The `Object.entries(channelNotes).forEach` loop. */
  method EntriesToEvents(entries: seq<int>, groups: map<int, seq<Note>>) returns (body: seq<Event>)
    requires forall k :: 0 <= k < |entries| ==> entries[k] in groups
    ensures body == Blocks(entries, groups)
  {
    body := [];
    var i := 0;
    while i < |entries|
      invariant 0 <= i <= |entries|
      invariant body == Blocks(entries[..i], groups)
    {
      var channel := entries[i];
      var block := ChannelToEvents(channel, groups[channel]);
      BlockListSnoc(entries, groups, i);
      ConcatSnoc(BlockList(entries[..i], groups), block);
      body := body + block;
      i := i + 1;
    }
    assert entries[..i] == entries;
  }

  /** sequenceToMidiFile, up to the events of its track. */
  method SequenceToMidiFile(sequence: Sequence) returns (events: seq<Event>)
    ensures events == TrackEvents(sequence)
  {
    events := [Tempo(IntOr(sequence.tempo, 120))];
    if sequence.timeSignature.Some? {
      var ts := sequence.timeSignature.value;
      events := events + [TimeSignature(ts.numerator, ts.denominator)];
    }
    assert events == Header(sequence);
    if sequence.notes.Some? {
      var body := NotesToTrack(sequence.notes.value);
      events := events + body;
    }
  }
}
