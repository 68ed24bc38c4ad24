// The conversion side of src/core/midiExport.js: beat times and durations
// to ticks, the grouping of a sequence's notes into one track per channel,
// and the events `sessionToMidiFile` gives each track. The file itself is
// built by the midi-writer-js library; the model stops at the tracks of
// events and the tempo and time signature handed to that library.
module CoreMidiExport {
  import opened JsSupport

  /** Ticks per quarter note. */
  const TicksPerBeat: real := 960.0

  /** convertTimeToTicks: `Math.round(time * 960)`. */
  function ConvertTimeToTicks(time: real): (t: int)
    ensures t as real - 0.5 <= time * TicksPerBeat < t as real + 0.5
  {
    JsRound(time * TicksPerBeat)
  }

  /** A whole number of ticks converts back exactly. */
  lemma TimeTicksExact(k: int)
    ensures ConvertTimeToTicks(k as real / TicksPerBeat) == k
  {
    assert (k as real / TicksPerBeat) * TicksPerBeat == k as real;
  }

  /** Later times never get fewer ticks. */
  lemma TimeTicksMonotone(a: real, b: real)
    requires a <= b
    ensures ConvertTimeToTicks(a) <= ConvertTimeToTicks(b)
  {
    assert a * TicksPerBeat <= b * TicksPerBeat;
  }

  /** convertDurationToTicks: the five note values become midi-writer-js
      duration names, anything else the decimal tick count. */
  function ConvertDurationToTicks(duration: real): (s: string)
    ensures |s| > 0
  {
    if duration == 4.0 then "1"
    else if duration == 2.0 then "2"
    else if duration == 1.0 then "4"
    else if duration == 0.5 then "8"
    else if duration == 0.25 then "16"
    else IntToString(ConvertTimeToTicks(duration))
  }

  predicate NamedDuration(d: real) {
    d == 4.0 || d == 2.0 || d == 1.0 || d == 0.5 || d == 0.25
  }

  /** The named durations halve as the note value doubles. */
  lemma NamedDurations()
    ensures ConvertDurationToTicks(4.0) == "1" && ConvertDurationToTicks(2.0) == "2"
    ensures ConvertDurationToTicks(1.0) == "4" && ConvertDurationToTicks(0.5) == "8"
    ensures ConvertDurationToTicks(0.25) == "16"
  {
  }

  /** Any other non-negative duration is spelt as its tick count, which
      reads back as that count. */
  lemma DurationTicksDigits(d: real)
    requires d >= 0.0 && !NamedDuration(d)
    ensures AllDigits(ConvertDurationToTicks(d))
    ensures DigitsValue(ConvertDurationToTicks(d)) == ConvertTimeToTicks(d)
  {
    var t := ConvertTimeToTicks(d);
    assert t >= 0;
    DigitsOfNatToString(t);
  }

  // ---------------------------------------------------------------------
  // Grouping a sequence's notes by channel

  datatype ExportNote = ExportNote(pitch: int, startTime: real, duration: real, velocity: Option<int>, channel: Option<int>)

  /** `note.channel || 0`. */
  function ChannelOf(n: ExportNote): int {
    IntOr(n.channel, 0)
  }

  function ChannelList(notes: seq<ExportNote>): (r: seq<int>)
    ensures |r| == |notes| && forall i :: 0 <= i < |notes| ==> r[i] == ChannelOf(notes[i])
  {
    if |notes| == 0 then [] else ChannelList(notes[..|notes| - 1]) + [ChannelOf(notes[|notes| - 1])]
  }

  /** The keys of `channelMap`: each channel once, in order of first use. */
  function Channels(notes: seq<ExportNote>): seq<int> {
    Dedup(ChannelList(notes))
  }

  /** The notes on channel `c`, in their original order. */
  function OfChannel(notes: seq<ExportNote>, c: int): (r: seq<ExportNote>)
    ensures |r| <= |notes|
  {
    if |notes| == 0 then []
    else
      var last := notes[|notes| - 1];
      OfChannel(notes[..|notes| - 1], c) + (if ChannelOf(last) == c then [last] else [])
  }

  lemma {:induction false} OfUnusedChannel(notes: seq<ExportNote>, c: int)
    requires c !in ChannelList(notes)
    ensures OfChannel(notes, c) == []
  {
    if |notes| > 0 {
      var init := notes[..|notes| - 1];
      assert ChannelList(notes) == ChannelList(init) + [ChannelOf(notes[|notes| - 1])];
      OfUnusedChannel(init, c);
    }
  }

  /** A note is in the group of its own channel. */
  lemma {:induction false} OfChannelContains(notes: seq<ExportNote>, i: nat)
    requires i < |notes|
    ensures notes[i] in OfChannel(notes, ChannelOf(notes[i]))
  {
    var n := |notes| - 1;
    if i < n {
      OfChannelContains(notes[..n], i);
    }
  }

  /** The sum of the group sizes over `cs`. */
  function GroupSizes(notes: seq<ExportNote>, cs: seq<int>): nat {
    if |cs| == 0 then 0 else GroupSizes(notes, cs[..|cs| - 1]) + |OfChannel(notes, cs[|cs| - 1])|
  }

  lemma {:induction false} GroupSizesAppend(notes: seq<ExportNote>, n: ExportNote, cs: seq<int>)
    requires NoDuplicates(cs)
    ensures GroupSizes(notes + [n], cs) == GroupSizes(notes, cs) + (if ChannelOf(n) in cs then 1 else 0)
  {
    if |cs| > 0 {
      var init := cs[..|cs| - 1];
      var c := cs[|cs| - 1];
      assert NoDuplicates(init);
      GroupSizesAppend(notes, n, init);
      var ns := notes + [n];
      assert ns[..|ns| - 1] == notes;
      assert OfChannel(ns, c) == OfChannel(notes, c) + (if ChannelOf(n) == c then [n] else []);
      assert cs == init + [c];
      assert ChannelOf(n) in cs <==> ChannelOf(n) in init || ChannelOf(n) == c;
      assert c !in init;
    }
  }

  lemma {:induction false} GroupSizesUnused(notes: seq<ExportNote>, cs: seq<int>)
    requires forall c :: c in cs ==> c !in ChannelList(notes)
    ensures GroupSizes(notes, cs) == 0
  {
    if |cs| > 0 {
      GroupSizesUnused(notes, cs[..|cs| - 1]);
      OfUnusedChannel(notes, cs[|cs| - 1]);
    }
  }

  /** The groups partition the notes: every note is in one group, and the
      group sizes add up to the number of notes. */
  lemma {:induction false} GroupingPartition(notes: seq<ExportNote>, cs: seq<int>)
    requires NoDuplicates(cs) && forall i :: 0 <= i < |notes| ==> ChannelOf(notes[i]) in cs
    ensures GroupSizes(notes, cs) == |notes|
  {
    if |notes| == 0 {
      GroupSizesUnused(notes, cs);
    } else {
      var init := notes[..|notes| - 1];
      var n := notes[|notes| - 1];
      assert forall i :: 0 <= i < |init| ==> init[i] == notes[i];
      GroupingPartition(init, cs);
      assert notes == init + [n];
      GroupSizesAppend(init, n, cs);
    }
  }

  lemma GroupingOfChannels(notes: seq<ExportNote>)
    ensures GroupSizes(notes, Channels(notes)) == |notes|
  {
    var list := ChannelList(notes);
    DedupMembers(list);
    assert forall i :: 0 <= i < |notes| ==> list[i] in list;
    GroupingPartition(notes, Channels(notes));
  }

  /** `channels` are the keys of `groups` in insertion order, and each
      holds the notes of its channel. */
  ghost predicate Grouped(ns: seq<ExportNote>, channels: seq<int>, groups: map<int, seq<ExportNote>>) {
    channels == Channels(ns) &&
    (forall c :: c in groups ==> c in channels) &&
    (forall k :: 0 <= k < |channels| ==> channels[k] in groups) &&
    (forall c :: c in groups ==> groups[c] == OfChannel(ns, c))
  }

  /** `channelMap` after one more note. */
  function FileNote(groups: map<int, seq<ExportNote>>, n: ExportNote): map<int, seq<ExportNote>> {
    var c := ChannelOf(n);
    var g := if c in groups then groups else groups[c := []];
    g[c := g[c] + [n]]
  }

  /** The key list and the map of `channelMap` after the notes `ns`. */
  function ChannelMap(ns: seq<ExportNote>): (seq<int>, map<int, seq<ExportNote>>) {
    if |ns| == 0 then ([], map[])
    else
      var (channels, groups) := ChannelMap(ns[..|ns| - 1]);
      var n := ns[|ns| - 1];
      (if ChannelOf(n) in groups then channels else channels + [ChannelOf(n)], FileNote(groups, n))
  }

  lemma GroupedStep(ns: seq<ExportNote>, n: ExportNote, channels: seq<int>, groups: map<int, seq<ExportNote>>)
    requires Grouped(ns, channels, groups)
    ensures var c := ChannelOf(n);
      Grouped(ns + [n], if c in groups then channels else channels + [c], FileNote(groups, n))
  {
    var c := ChannelOf(n);
    var ms := ns + [n];
    var channels2 := if c in groups then channels else channels + [c];
    ChannelsStep(ns, n, channels, groups);
    OfChannelStep(ns, n);
    if c !in groups {
      assert c !in channels;
      DedupMembers(ChannelList(ns));
      OfUnusedChannel(ns, c);
    }
    var g := FileNote(groups, n);
    assert forall d :: d in g ==> g[d] == OfChannel(ms, d);
  }

  lemma ChannelsStep(ns: seq<ExportNote>, n: ExportNote, channels: seq<int>, groups: map<int, seq<ExportNote>>)
    requires Grouped(ns, channels, groups)
    ensures var c := ChannelOf(n);
      Channels(ns + [n]) == (if c in groups then channels else channels + [c])
  {
    var ms := ns + [n];
    assert ms[..|ms| - 1] == ns;
    assert ChannelList(ms) == ChannelList(ns) + [ChannelOf(n)];
  }

  lemma OfChannelStep(ns: seq<ExportNote>, n: ExportNote)
    ensures forall d :: OfChannel(ns + [n], d) == OfChannel(ns, d) + (if ChannelOf(n) == d then [n] else [])
  {
    var ms := ns + [n];
    assert ms[..|ms| - 1] == ns;
  }

  /** `channelMap` groups the notes by channel. */
  lemma {:induction false} ChannelMapGrouped(ns: seq<ExportNote>)
    ensures Grouped(ns, ChannelMap(ns).0, ChannelMap(ns).1)
  {
    if |ns| > 0 {
      var init := ns[..|ns| - 1];
      ChannelMapGrouped(init);
      assert ns == init + [ns[|ns| - 1]];
      GroupedStep(init, ns[|ns| - 1], ChannelMap(init).0, ChannelMap(init).1);
    }
  }

  /** Fills `channelMap` as the first loop of `sequenceToMidiFile` does. */
  method GroupByChannel(notes: seq<ExportNote>) returns (channels: seq<int>, groups: map<int, seq<ExportNote>>)
    ensures (channels, groups) == ChannelMap(notes)
  {
    channels := [];
    groups := map[];
    var i := 0;
    while i < |notes|
      invariant 0 <= i <= |notes|
      invariant (channels, groups) == ChannelMap(notes[..i])
    {
      var note := notes[i];
      var channel := ChannelOf(note);
      assert notes[..i + 1][..i] == notes[..i];
      if channel !in groups {
        groups := groups[channel := []];
        channels := channels + [channel];
      }
      groups := groups[channel := groups[channel] + [note]];
      i := i + 1;
    }
    assert notes[..i] == notes;
  }

  // ---------------------------------------------------------------------
  // Tracks and events

  /** A track of the session object `sessionToMidiFile` reads. */
  datatype Track = Track(id: int, name: string, instrument: Option<int>, notes: Option<seq<ExportNote>>)

  /** The track `sequenceToMidiFile` makes for a channel: id channel+1, and
      instrument 0 on the drum channel 9, else the channel number. */
  function ChannelTrack(c: int, notes: seq<ExportNote>): Track {
    Track(c + 1, TrackName(c + 1), Some(if c == 9 then 0 else c), Some(notes))
  }

  /** `Track ${id}`. */
  function TrackName(id: int): string {
    "Track " + IntToString(id)
  }

  datatype Event =
    | ProgramChange(instrument: int, channel: int)
    | NoteEvent(pitch: int, duration: string, velocity: int, channel: int, startTick: int)

  /** The note event for `n` on `channel`; velocity defaults to 100. */
  function NoteEventOf(n: ExportNote, channel: int): Event {
    NoteEvent(n.pitch, ConvertDurationToTicks(n.duration), IntOr(n.velocity, 100), channel,
              ConvertTimeToTicks(n.startTime))
  }

  function NoteEvents(notes: seq<ExportNote>, channel: int): (r: seq<Event>)
    ensures |r| == |notes| && forall k :: 0 <= k < |notes| ==> r[k] == NoteEventOf(notes[k], channel)
  {
    if |notes| == 0 then [] else NoteEvents(notes[..|notes| - 1], channel) + [NoteEventOf(notes[|notes| - 1], channel)]
  }

  /** `track.id % 16`. */
  function TrackChannel(t: Track): int {
    JsRem(t.id, 16)
  }

  /** The events of one track: a program change, then one note event per
      note, all on the track's channel. */
  function TrackEvents(t: Track): (r: seq<Event>)
    ensures |r| == 1 + |t.notes.GetOr([])|
    ensures r[0] == ProgramChange(IntOr(t.instrument, 0), TrackChannel(t))
    ensures forall k :: 0 <= k < |t.notes.GetOr([])| ==> r[k + 1] == NoteEventOf(t.notes.GetOr([])[k], TrackChannel(t))
  {
    [ProgramChange(IntOr(t.instrument, 0), TrackChannel(t))] + NoteEvents(t.notes.GetOr([]), TrackChannel(t))
  }

  /** A track with a non-negative id plays on one of the 16 MIDI channels. */
  lemma TrackChannelRange(t: Track)
    requires t.id >= 0
    ensures 0 <= TrackChannel(t) < 16 && TrackChannel(t) == t.id % 16
  {
  }

  function TracksEvents(tracks: seq<Track>): (r: seq<seq<Event>>)
    ensures |r| == |tracks| && forall i :: 0 <= i < |tracks| ==> r[i] == TrackEvents(tracks[i])
  {
    if |tracks| == 0 then [] else TracksEvents(tracks[..|tracks| - 1]) + [TrackEvents(tracks[|tracks| - 1])]
  }

  /** The session object `sessionToMidiFile` reads; a time signature that
      is not an array is `None`. */
  datatype ExportSession = ExportSession(bpm: Option<int>, timeSignature: Option<seq<int>>, tracks: seq<Track>)

  /** What is handed to the MIDI writer: the tracks' events, the tempo when
      `bpm` is truthy, and the time signature when it is a pair. */
  datatype MidiFile = MidiFile(tracks: seq<seq<Event>>, tempo: Option<int>, timeSignature: Option<(int, int)>)

  function SessionFile(s: ExportSession): (f: MidiFile)
    ensures f.tracks == TracksEvents(s.tracks)
    ensures f.tempo.Some? <==> s.bpm.Some? && s.bpm.value != 0
    ensures f.tempo.Some? ==> f.tempo.value == s.bpm.value
    ensures f.timeSignature.Some? <==> s.timeSignature.Some? && |s.timeSignature.value| == 2
    ensures f.timeSignature.Some? ==> f.timeSignature.value == (s.timeSignature.value[0], s.timeSignature.value[1])
  {
    MidiFile(TracksEvents(s.tracks),
             if s.bpm.Some? && s.bpm.value != 0 then s.bpm else None,
             if s.timeSignature.Some? && |s.timeSignature.value| == 2
             then Some((s.timeSignature.value[0], s.timeSignature.value[1])) else None)
  }

  /** The events of one track, as the inner loop of `sessionToMidiFile`
      adds them. */
  method TrackToEvents(track: Track) returns (events: seq<Event>)
    ensures events == TrackEvents(track)
  {
    var channel := JsRem(track.id, 16);
    events := [ProgramChange(IntOr(track.instrument, 0), channel)];
    var notes := track.notes.GetOr([]);
    var i := 0;
    while i < |notes|
      invariant 0 <= i <= |notes|
      invariant events == [ProgramChange(IntOr(track.instrument, 0), channel)] + NoteEvents(notes[..i], channel)
    {
      assert notes[..i + 1][..i] == notes[..i];
      events := events + [NoteEventOf(notes[i], channel)];
      i := i + 1;
    }
    assert notes[..i] == notes;
  }

  /** sessionToMidiFile, up to the library's file building. */
  method SessionToMidiFile(session: ExportSession) returns (file: MidiFile)
    ensures file == SessionFile(session)
  {
    var tracks: seq<seq<Event>> := [];
    var i := 0;
    while i < |session.tracks|
      invariant 0 <= i <= |session.tracks|
      invariant tracks == TracksEvents(session.tracks[..i])
    {
      assert session.tracks[..i + 1][..i] == session.tracks[..i];
      var events := TrackToEvents(session.tracks[i]);
      tracks := tracks + [events];
      i := i + 1;
    }
    assert session.tracks[..i] == session.tracks;
    var tempo: Option<int> := None;
    if session.bpm.Some? && session.bpm.value != 0 {
      tempo := session.bpm;
    }
    var timeSignature: Option<(int, int)> := None;
    if session.timeSignature.Some? && |session.timeSignature.value| == 2 {
      timeSignature := Some((session.timeSignature.value[0], session.timeSignature.value[1]));
    }
    file := MidiFile(tracks, tempo, timeSignature);
  }

  // ---------------------------------------------------------------------
  // sequenceToMidiFile

  /** A sequence's `timeSignature`: an array, an object with optional
      fields, or absent. */
  datatype TimeSignatureInput = TsArray(values: seq<int>) | TsObject(numerator: Option<int>, denominator: Option<int>) | TsMissing

  datatype ExportSequence = ExportSequence(tempo: Option<int>, timeSignature: TimeSignatureInput, notes: Option<seq<ExportNote>>)

  /** An array is kept; otherwise `[numerator || 4, denominator || 4]`. */
  function SessionTimeSignature(ts: TimeSignatureInput): (r: seq<int>)
    ensures ts.TsArray? ==> r == ts.values
    ensures !ts.TsArray? ==> |r| == 2
    ensures ts.TsMissing? ==> r == [4, 4]
  {
    match ts
    case TsArray(values) => values
    case TsObject(n, d) => [IntOr(n, 4), IntOr(d, 4)]
    case TsMissing => [4, 4]
  }

  /** The tracks for `channels`, in order. */
  function ChannelTracks(channels: seq<int>, notes: seq<ExportNote>): (r: seq<Track>)
    ensures |r| == |channels|
  {
    seq(|channels|, i requires 0 <= i < |channels| => ChannelTrack(channels[i], OfChannel(notes, channels[i])))
  }

  /** The session object `sequenceToMidiFile` builds. */
  function SequenceSession(s: ExportSequence): ExportSession {
    var notes := s.notes.GetOr([]);
    ExportSession(Some(IntOr(s.tempo, 120)), Some(SessionTimeSignature(s.timeSignature)),
                  ChannelTracks(Channels(notes), notes))
  }

  method SequenceToMidiFile(sequence: ExportSequence) returns (file: MidiFile)
    ensures file == SessionFile(SequenceSession(sequence))
  {
    var notes := sequence.notes.GetOr([]);
    var channels, groups := GroupByChannel(notes);
    ChannelMapGrouped(notes);
    assert forall k :: 0 <= k < |channels| ==> channels[k] in groups && groups[channels[k]] == OfChannel(notes, channels[k]);
    var tracks := BuildTracks(notes, channels, groups);
    var session := ExportSession(Some(IntOr(sequence.tempo, 120)), Some(SessionTimeSignature(sequence.timeSignature)), tracks);
    file := SessionToMidiFile(session);
  }

  /** The second loop of `sequenceToMidiFile`: one track per channel. */
  method BuildTracks(notes: seq<ExportNote>, channels: seq<int>, groups: map<int, seq<ExportNote>>) returns (tracks: seq<Track>)
    requires forall k :: 0 <= k < |channels| ==> channels[k] in groups && groups[channels[k]] == OfChannel(notes, channels[k])
    ensures tracks == ChannelTracks(channels, notes)
  {
    tracks := [];
    var i := 0;
    while i < |channels|
      invariant 0 <= i <= |channels| && |tracks| == i
      invariant forall k :: 0 <= k < i ==> tracks[k] == ChannelTrack(channels[k], OfChannel(notes, channels[k]))
    {
      var c := channels[i];
      assert c in groups;
      var group := groups[c];
      assert group == OfChannel(notes, c);
      tracks := tracks + [ChannelTrack(c, group)];
      i := i + 1;
    }
    assert tracks == ChannelTracks(channels, notes);
  }

  /** Every note of a sequence is exported: its event sits in the track of
      its channel, on MIDI channel `(channel + 1) % 16` (with
      `GroupingOfChannels`, the tracks' note counts add up to the number of
      notes, so each note is exported exactly once). */
  lemma SequenceExportKeepsNotes(notes: seq<ExportNote>, i: nat)
    requires i < |notes|
    ensures var tracks := ChannelTracks(Channels(notes), notes);
      var c := ChannelOf(notes[i]);
      exists j :: 0 <= j < |tracks| && tracks[j].id == c + 1 &&
        NoteEventOf(notes[i], JsRem(c + 1, 16)) in TrackEvents(tracks[j])
  {
    var n := notes[i];
    var c := ChannelOf(n);
    var j := ChannelIndex(notes, i);
    var group := OfChannel(notes, c);
    OfChannelContains(notes, i);
    var k :| 0 <= k < |group| && group[k] == n;
    var tracks := ChannelTracks(Channels(notes), notes);
    var t := ChannelTrack(c, group);
    assert tracks[j] == t;
    TrackHasNote(t, k);
    assert 0 <= j < |tracks| && tracks[j].id == c + 1 && NoteEventOf(n, JsRem(c + 1, 16)) in TrackEvents(tracks[j]);
  }

  lemma TrackHasNote(t: Track, k: nat)
    requires t.notes.Some? && k < |t.notes.value|
    ensures NoteEventOf(t.notes.value[k], TrackChannel(t)) in TrackEvents(t)
  {
    assert TrackEvents(t)[k + 1] == NoteEventOf(t.notes.value[k], TrackChannel(t));
  }

  /** The position of a note's channel among the channels. */
  lemma ChannelIndex(notes: seq<ExportNote>, i: nat) returns (j: nat)
    requires i < |notes|
    ensures j < |Channels(notes)| && Channels(notes)[j] == ChannelOf(notes[i])
  {
    var list := ChannelList(notes);
    DedupMembers(list);
    assert list[i] in list;
    var cs := Channels(notes);
    j :| 0 <= j < |cs| && cs[j] == list[i];
  }
}
