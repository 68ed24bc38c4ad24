// src/core/midi-framework.js, `SequenceOperations` (lines 758-888): new
// sequences built from existing ones. Each result is a fresh sequence that
// takes its tempo, time signature and key from the source sequence and holds
// clones of the source's notes; since notes are values here, a clone is the
// note itself.
module CoreFrameworkOperations {
  import opened JsSupport
  import opened Sorting
  import opened CoreFrameworkSequence

  /** The options of a derived sequence: the given name, the source's tempo,
      time signature and key, and no id, so that the constructor generates
      one. */
  function DerivedOptions(name: string, source: SequenceData): SequenceOptions {
    SequenceOptions(None, Some(name), Some(source.timeSignature), Some(source.tempo), Some(source.key))
  }

  /** `notes.map(note => note.clone())`, as arguments of `addNotes`. */
  function Clones(ns: seq<NoteData>): (r: seq<NoteArg>)
    ensures ArgNotes(r) == ns
  {
    var r := seq(|ns|, i requires 0 <= i < |ns| => Instance(ns[i]));
    assert ArgNotes(r) == ns;
    r
  }

  // ---------------------------------------------------------------------
  // mergeSequences

  /** The sequence mergeSequences returns. */
  function Merged(a: SequenceData, b: SequenceData, generatedId: string): SequenceData {
    NewSequence(DerivedOptions(a.name + " + " + b.name, a), generatedId).(notes := a.notes + b.notes)
  }

  /** mergeSequences. */
  method MergeSequences(sequence1: MidiSequence, sequence2: MidiSequence, generatedId: string) returns (result: MidiSequence)
    ensures fresh(result) && result.Data() == Merged(sequence1.Data(), sequence2.Data(), generatedId)
  {
    var d1, d2 := sequence1.Data(), sequence2.Data();
    result := new MidiSequence(DerivedOptions(d1.name + " + " + d2.name, d1), generatedId);
    var base := result.Data();
    var clones1 := Clones(d1.notes);
    result.AddNotes(ArgArray(clones1));
    assert result.Data() == base.(notes := d1.notes);
    var clones2 := Clones(d2.notes);
    result.AddNotes(ArgArray(clones2));
    assert result.Data() == base.(notes := d1.notes + d2.notes);
  }

  /** The merge holds the first sequence's notes, then the second's, each as
      often as it occurs in its sequence, and takes the first sequence's
      tempo (0 falls back to 120), time signature and key. */
  lemma MergedContract(a: SequenceData, b: SequenceData, generatedId: string)
    ensures var m := Merged(a, b, generatedId);
            m.notes[..|a.notes|] == a.notes && m.notes[|a.notes|..] == b.notes &&
            multiset(m.notes) == multiset(a.notes) + multiset(b.notes) &&
            m.timeSignature == a.timeSignature && m.tempo == (if a.tempo == 0 then 120 else a.tempo) &&
            m.key == (if a.key == "" then "C major" else a.key) && m.name == a.name + " + " + b.name
  {
    var m := Merged(a, b, generatedId);
    assert m.notes == a.notes + b.notes;
    assert m.name == a.name + " + " + b.name by {
      assert (a.name + " + " + b.name) != "" by {
        assert |a.name + " + " + b.name| >= 3;
      }
    }
  }

  /** Two non-empty sequences merge into one that lasts as long as the
      longer of them. */
  lemma MergedDuration(a: SequenceData, b: SequenceData, generatedId: string)
    requires |a.notes| > 0 && |b.notes| > 0
    ensures Duration(Merged(a, b, generatedId).notes) == MaxReal(Duration(a.notes), Duration(b.notes))
  {
    var ns := a.notes + b.notes;
    var m := MaxReal(Duration(a.notes), Duration(b.notes));
    assert Merged(a, b, generatedId).notes == ns;
    forall i | 0 <= i < |ns|
      ensures EndOf(ns[i]) <= m
    {
      if i < |a.notes| {
        assert ns[i] == a.notes[i];
      } else {
        assert ns[i] == b.notes[i - |a.notes|];
      }
    }
    if m == Duration(a.notes) {
      var k :| 0 <= k < |a.notes| && EndOf(a.notes[k]) == m;
      assert ns[k] == a.notes[k];
    } else {
      var k :| 0 <= k < |b.notes| && EndOf(b.notes[k]) == m;
      assert ns[|a.notes| + k] == b.notes[k];
    }
    DurationUnique(ns, m);
  }

  // ---------------------------------------------------------------------
  // splitByChannel

  /** The channels of the notes, in note order. */
  function Channels(ns: seq<NoteData>): (r: seq<int>)
    ensures |r| == |ns| && forall i :: 0 <= i < |ns| ==> r[i] == ns[i].channel
  {
    if |ns| == 0 then [] else Channels(ns[..|ns| - 1]) + [ns[|ns| - 1].channel]
  }

  /** The keys of `channels` in the order `Object.values` lists them:
      every channel used once, the non-negative ones ascending and then the
      negative ones in order of first use. */
  function ChannelKeys(ns: seq<NoteData>): seq<int> {
    EntryKeys(Dedup(Channels(ns)))
  }

  /** The name of channel `c`'s part. */
  function PartName(name: string, c: int): string {
    name + " (Channel " + IntToString(c) + ")"
  }

  /** The sequence created for channel `c`, holding that channel's notes in
      their order; `ids(c)` stands for the id its constructor generates. */
  function Part(d: SequenceData, c: int, ids: int -> string): SequenceData {
    PartBase(d, c, ids).(notes := ChannelNotes(d.notes, c))
  }

  /** The part of channel `c` as its constructor leaves it. */
  function PartBase(d: SequenceData, c: int, ids: int -> string): SequenceData {
    NewSequence(DerivedOptions(PartName(d.name, c), d), ids(c))
  }

  /** What splitByChannel returns: one part per channel key. */
  function Split(d: SequenceData, ids: int -> string): (parts: seq<SequenceData>)
    ensures |parts| == |ChannelKeys(d.notes)|
    ensures forall k :: 0 <= k < |parts| ==> parts[k] == Part(d, ChannelKeys(d.notes)[k], ids)
  {
    var keys := ChannelKeys(d.notes);
    seq(|keys|, k requires 0 <= k < |keys| => Part(d, keys[k], ids))
  }

  /** splitByChannel: the grouping loop, then `Object.values(channels)`. The
      parts are returned as the states of the new sequences. */
  method SplitByChannel(sequence: MidiSequence, ids: int -> string) returns (parts: seq<SequenceData>)
    ensures parts == Split(sequence.Data(), ids)
  {
    var d := sequence.Data();
    var keys, channels := GroupByChannel(d, ids);
    var order := EntryKeys(keys);
    OrderInChannels(d, ids);
    parts := ValuesInOrder(order, channels);
    SplitOfParts(d, ids, parts);
  }

  /** Every key `Object.values` visits is a key of `channels`. */
  lemma OrderInChannels(d: SequenceData, ids: int -> string)
    ensures var (keys, channels) := Grouped(d, ids, d.notes);
            forall k :: 0 <= k < |EntryKeys(keys)| ==> EntryKeys(keys)[k] in channels
  {
    var (keys, channels) := Grouped(d, ids, d.notes);
    GroupedKeys(d, ids, d.notes);
    EntryKeysPermutation(keys);
    forall k | 0 <= k < |EntryKeys(keys)|
      ensures EntryKeys(keys)[k] in channels
    {
      assert EntryKeys(keys)[k] in EntryKeys(keys);
    }
  }

  /** The values read in key order are the parts of Split. */
  lemma SplitOfParts(d: SequenceData, ids: int -> string, parts: seq<SequenceData>)
    requires var (keys, channels) := Grouped(d, ids, d.notes);
             |parts| == |EntryKeys(keys)| &&
             forall k :: 0 <= k < |EntryKeys(keys)| ==> EntryKeys(keys)[k] in channels && parts[k] == channels[EntryKeys(keys)[k]]
    ensures parts == Split(d, ids)
  {
    var (keys, channels) := Grouped(d, ids, d.notes);
    GroupedKeys(d, ids, d.notes);
    assert EntryKeys(keys) == ChannelKeys(d.notes);
    forall k | 0 <= k < |parts|
      ensures parts[k] == Split(d, ids)[k]
    {
      GroupedParts(d, ids, d.notes, EntryKeys(keys)[k]);
    }
  }

  /** `Object.values(channels)` for the keys in `order`. */
  method ValuesInOrder(order: seq<int>, channels: map<int, SequenceData>) returns (parts: seq<SequenceData>)
    requires forall k :: 0 <= k < |order| ==> order[k] in channels
    ensures |parts| == |order| && forall k :: 0 <= k < |order| ==> parts[k] == channels[order[k]]
  {
    parts := [];
    var j := 0;
    while j < |order|
      invariant 0 <= j <= |order|
      invariant |parts| == j && forall k :: 0 <= k < j ==> parts[k] == channels[order[k]]
    {
      parts := parts + [channels[order[j]]];
      j := j + 1;
    }
  }

  /** `channels` after the notes `ns`, with its keys in insertion order:
      the first note of a channel creates its part, and every note is
      added to the part of its channel. */
  function Grouped(d: SequenceData, ids: int -> string, ns: seq<NoteData>): (seq<int>, map<int, SequenceData>) {
    if |ns| == 0 then ([], map[])
    else
      var (keys, channels) := Grouped(d, ids, ns[..|ns| - 1]);
      var note := ns[|ns| - 1];
      var c := note.channel;
      var created := if c in channels then channels else channels[c := PartBase(d, c, ids)];
      (if c in channels then keys else keys + [c], created[c := created[c].(notes := created[c].notes + [note])])
  }

  /** The grouping loop. */
  method GroupByChannel(d: SequenceData, ids: int -> string) returns (keys: seq<int>, channels: map<int, SequenceData>)
    ensures (keys, channels) == Grouped(d, ids, d.notes)
  {
    var ns := d.notes;
    keys, channels := [], map[];
    var i := 0;
    while i < |ns|
      invariant 0 <= i <= |ns|
      invariant (keys, channels) == Grouped(d, ids, ns[..i])
    {
      var note := ns[i];
      var channel := note.channel;
      assert ns[..i + 1][..i] == ns[..i];
      if channel !in channels {
        channels := channels[channel := PartBase(d, channel, ids)];
        keys := keys + [channel];
      }
      channels := channels[channel := channels[channel].(notes := channels[channel].notes + [note])];
      i := i + 1;
    }
    assert ns[..i] == ns;
  }

  /** The keys are the channels in order of first use, and they are the
      keys of `channels`. */
  lemma {:induction false} GroupedKeys(d: SequenceData, ids: int -> string, ns: seq<NoteData>)
    ensures Grouped(d, ids, ns).0 == Dedup(Channels(ns))
    ensures forall c :: c in Grouped(d, ids, ns).1 <==> c in Grouped(d, ids, ns).0
  {
    if |ns| > 0 {
      var init := ns[..|ns| - 1];
      GroupedKeys(d, ids, init);
      assert Channels(ns) == Channels(init) + [ns[|ns| - 1].channel];
    }
  }

  /** The part of every channel holds exactly that channel's notes. */
  lemma {:induction false} GroupedParts(d: SequenceData, ids: int -> string, ns: seq<NoteData>, c: int)
    requires c in Grouped(d, ids, ns).1
    ensures Grouped(d, ids, ns).1[c] == PartBase(d, c, ids).(notes := ChannelNotes(ns, c))
  {
    var init := ns[..|ns| - 1];
    var note := ns[|ns| - 1];
    assert ns == init + [note];
    ChannelNotesSnoc(init, note, c);
    if c in Grouped(d, ids, init).1 {
      GroupedParts(d, ids, init, c);
    } else {
      GroupedKeys(d, ids, init);
      DedupMembers(Channels(init));
      ChannelNotesAbsent(init, c);
    }
  }

  lemma ChannelsSnoc(ns: seq<NoteData>, n: NoteData)
    ensures Channels(ns + [n]) == Channels(ns) + [n.channel]
  {
    assert (ns + [n])[..|ns|] == ns;
  }

  lemma {:induction false} ChannelNotesSnoc(ns: seq<NoteData>, n: NoteData, c: int)
    ensures ChannelNotes(ns + [n], c) == ChannelNotes(ns, c) + (if n.channel == c then [n] else [])
  {
    if |ns| > 0 {
      assert (ns + [n])[1..] == ns[1..] + [n];
      ChannelNotesSnoc(ns[1..], n, c);
    }
  }

  /** A channel that no note uses has no notes. */
  lemma {:induction false} ChannelNotesAbsent(ns: seq<NoteData>, c: int)
    requires c !in Channels(ns)
    ensures ChannelNotes(ns, c) == []
  {
    if |ns| > 0 {
      assert Channels(ns)[0] == ns[0].channel;
      assert forall i :: 0 <= i < |ns| - 1 ==> Channels(ns[1..])[i] == Channels(ns)[i + 1];
      ChannelNotesAbsent(ns[1..], c);
    }
  }

  /** splitByChannel makes one part per channel in use and no other: every
      part is on a different channel, and a channel has a part exactly when
      some note uses it. */
  lemma ChannelKeysContract(ns: seq<NoteData>)
    ensures NoDuplicates(ChannelKeys(ns))
    ensures forall c :: c in ChannelKeys(ns) <==> exists i :: 0 <= i < |ns| && ns[i].channel == c
  {
    var keys := Dedup(Channels(ns));
    EntryKeysPermutation(keys);
    DedupMembers(Channels(ns));
    var e := ChannelKeys(ns);
    forall i, j | 0 <= i < j < |e|
      ensures e[i] != e[j]
    {
      if e[i] == e[j] {
        CountTwo(e, i, j);
        DistinctCount(keys, e[i]);
      }
    }
    forall c
      ensures c in e <==> exists i :: 0 <= i < |ns| && ns[i].channel == c
    {
      if c in Channels(ns) {
        var i :| 0 <= i < |ns| && Channels(ns)[i] == c;
        assert ns[i].channel == c;
      }
      if exists i :: 0 <= i < |ns| && ns[i].channel == c {
        var i :| 0 <= i < |ns| && ns[i].channel == c;
        assert Channels(ns)[i] == c;
      }
    }
  }

  /** Two equal entries count twice. */
  lemma CountTwo(s: seq<int>, i: nat, j: nat)
    requires i < j < |s| && s[i] == s[j]
    ensures multiset(s)[s[i]] >= 2
  {
    assert s == s[..i] + [s[i]] + s[i + 1..j] + [s[j]] + s[j + 1..];
  }

  /** A list without duplicates holds a value at most once. */
  lemma {:induction false} DistinctCount(s: seq<int>, x: int)
    requires NoDuplicates(s)
    ensures multiset(s)[x] <= 1
  {
    if |s| > 0 {
      var init := s[..|s| - 1];
      assert s == init + [s[|s| - 1]];
      assert forall k :: 0 <= k < |init| ==> init[k] == s[k] && s[k] != s[|s| - 1];
      DistinctCount(init, x);
      if x == s[|s| - 1] {
        assert x !in init;
      }
    }
  }

  /** Each part holds exactly the notes of its channel, each as often as it
      occurs in the sequence, in their order, and is named after the
      channel. */
  lemma SplitPartContract(d: SequenceData, ids: int -> string, k: nat)
    requires k < |Split(d, ids)|
    ensures var c := ChannelKeys(d.notes)[k];
            var p := Split(d, ids)[k];
            (forall i :: 0 <= i < |p.notes| ==> p.notes[i].channel == c) &&
            (forall n :: multiset(p.notes)[n] == if n.channel == c then multiset(d.notes)[n] else 0) &&
            p.name == PartName(d.name, c)
  {
    var c := ChannelKeys(d.notes)[k];
    ChannelNotesCounts(d.notes, c);
    assert |PartName(d.name, c)| > 0;
  }

  /** With the usual channels 0..15 the parts come in ascending channel
      order. */
  lemma SplitAscending(ns: seq<NoteData>)
    requires forall i :: 0 <= i < |ns| ==> 0 <= ns[i].channel < 16
    ensures Ascending(ChannelKeys(ns))
  {
    var keys := Dedup(Channels(ns));
    DedupMembers(Channels(ns));
    forall i | 0 <= i < |keys|
      ensures 0 <= keys[i] < 16
    {
      assert keys[i] in Channels(ns);
    }
    EntryKeysAscending(keys);
  }

  // ---------------------------------------------------------------------
  // createLoop

  /** A clone of `n` moved by `offset` beats. */
  function Shifted(n: NoteData, offset: real): NoteData {
    n.(startTime := n.startTime + offset)
  }

  /** The first `j` notes of one copy, moved by `offset`. */
  function Copy(ns: seq<NoteData>, offset: real, j: nat): seq<NoteData>
    requires j <= |ns|
  {
    if j == 0 then [] else Copy(ns, offset, j - 1) + [Shifted(ns[j - 1], offset)]
  }

  /** `repeats` copies of the notes, copy `i` moved by `i * duration`. */
  function LoopNotes(ns: seq<NoteData>, duration: real, repeats: nat): seq<NoteData> {
    if repeats == 0 then [] else LoopNotes(ns, duration, repeats - 1) + Copy(ns, (repeats - 1) as real * duration, |ns|)
  }

  /** The sequence createLoop returns. A non-positive `repeats` gives an
      empty loop. */
  function Looped(d: SequenceData, repeats: int, generatedId: string): SequenceData {
    NewSequence(DerivedOptions(d.name + " (Loop)", d), generatedId).(notes := LoopNotes(d.notes, Duration(d.notes), Rounds(repeats)))
  }

  /** createLoop, four times by default. */
  method CreateLoop(sequence: MidiSequence, repeats: Option<int>, generatedId: string) returns (result: MidiSequence)
    ensures fresh(result) && result.Data() == Looped(sequence.Data(), repeats.GetOr(4), generatedId)
  {
    var count := repeats.GetOr(4);
    var d := sequence.Data();
    result := new MidiSequence(DerivedOptions(d.name + " (Loop)", d), generatedId);
    var base := result.Data();
    var duration := sequence.GetDuration();
    var ns := sequence.notes;
    var i := 0;
    while i < count
      invariant 0 <= i && (count >= 0 ==> i <= count) && (count < 0 ==> i == 0)
      invariant result.Data() == base.(notes := LoopNotes(ns, duration, i))
      modifies result
    {
      var offset := i as real * duration;
      var j := 0;
      while j < |ns|
        invariant 0 <= j <= |ns|
        invariant result.Data() == base.(notes := LoopNotes(ns, duration, i) + Copy(ns, offset, j))
        modifies result
      {
        var note := ns[j].(startTime := ns[j].startTime + offset);
        result.AddNote(Instance(note));
        j := j + 1;
      }
      LoopNotesSnoc(ns, duration, i);
      i := i + 1;
    }
    assert i == Rounds(count);
  }

  lemma LoopNotesSnoc(ns: seq<NoteData>, duration: real, r: nat)
    ensures LoopNotes(ns, duration, r + 1) == LoopNotes(ns, duration, r) + Copy(ns, r as real * duration, |ns|)
  {
    assert (r + 1 - 1) as real == r as real;
  }

  lemma {:induction false} CopyAt(ns: seq<NoteData>, offset: real, j: nat, k: nat)
    requires k < j <= |ns|
    ensures |Copy(ns, offset, j)| == j && Copy(ns, offset, j)[k] == Shifted(ns[k], offset)
  {
    if k < j - 1 {
      CopyAt(ns, offset, j - 1, k);
    } else if j > 1 {
      CopyAt(ns, offset, j - 1, 0);
    }
  }

  lemma {:induction false} CopyCount(ns: seq<NoteData>, offset: real, j: nat)
    requires j <= |ns|
    ensures |Copy(ns, offset, j)| == j
  {
    if j > 0 {
      CopyCount(ns, offset, j - 1);
    }
  }

  lemma {:induction false} LoopNotesCount(ns: seq<NoteData>, duration: real, repeats: nat)
    ensures |LoopNotes(ns, duration, repeats)| == repeats * |ns|
  {
    if repeats > 0 {
      LoopNotesCount(ns, duration, repeats - 1);
      CopyCount(ns, (repeats - 1) as real * duration, |ns|);
      assert (repeats - 1) * |ns| + |ns| == repeats * |ns|;
    }
  }

  lemma {:induction false} LoopNotesPrefix(ns: seq<NoteData>, duration: real, r: nat, s: nat)
    requires r <= s
    ensures LoopNotes(ns, duration, r) <= LoopNotes(ns, duration, s)
  {
    if r < s {
      LoopNotesPrefix(ns, duration, r, s - 1);
    }
  }

  /** Note `j` of copy `k` is note `j` of the sequence moved `k` durations
      later; the loop has `repeats` times as many notes. */
  lemma LoopNoteAt(ns: seq<NoteData>, duration: real, repeats: nat, k: nat, j: nat)
    requires k < repeats && j < |ns|
    ensures var notes := LoopNotes(ns, duration, repeats);
            |notes| == repeats * |ns| && k * |ns| + j < |notes| &&
            notes[k * |ns| + j] == Shifted(ns[j], k as real * duration)
  {
    var offset := k as real * duration;
    var a := LoopNotes(ns, duration, k);
    var b := Copy(ns, offset, |ns|);
    LoopNotesSnoc(ns, duration, k);
    LoopNotesCount(ns, duration, k);
    LoopNotesCount(ns, duration, repeats);
    CopyAt(ns, offset, |ns|, j);
    LoopNotesPrefix(ns, duration, k + 1, repeats);
    var notes := LoopNotes(ns, duration, repeats);
    assert |a| == k * |ns|;
    assert notes[|a| + j] == (a + b)[|a| + j] == b[j];
  }

  lemma ShiftedEnd(n: NoteData, offset: real)
    ensures EndOf(Shifted(n, offset)) == EndOf(n) + offset
  {
  }

  /** The notes of the first `r` copies end by `r` durations. */
  lemma {:induction false} LoopNotesEndBy(ns: seq<NoteData>, duration: real, r: nat, top: real)
    requires duration >= 0.0 && forall i :: 0 <= i < |ns| ==> EndOf(ns[i]) <= duration
    requires (r as real) * duration <= top
    ensures forall i :: 0 <= i < |LoopNotes(ns, duration, r)| ==> EndOf(LoopNotes(ns, duration, r)[i]) <= top
  {
    if r > 0 {
      var offset := (r - 1) as real * duration;
      RealStep(r, duration);
      var a := LoopNotes(ns, duration, r - 1);
      var b := Copy(ns, offset, |ns|);
      assert LoopNotes(ns, duration, r) == a + b;
      LoopNotesEndBy(ns, duration, r - 1, top);
      CopyCount(ns, offset, |ns|);
      forall i | 0 <= i < |b|
        ensures EndOf(b[i]) <= top
      {
        CopyAt(ns, offset, |ns|, i);
        ShiftedEnd(ns[i], offset);
      }
    }
  }

  lemma RealSucc(k: nat, d: real)
    ensures k as real * d + d == (k + 1) as real * d
  {
  }

  lemma RealStep(r: nat, d: real)
    requires r > 0 && d >= 0.0
    ensures (r - 1) as real * d <= (r as real) * d && (r - 1) as real * d + d == (r as real) * d
  {
  }

  /** The copy of the longest-lasting note `j` in the last copy ends at
      `repeats` durations. */
  lemma LastCopyReaches(ns: seq<NoteData>, dur: real, repeats: nat, j: nat, idx: nat)
    requires repeats > 0 && j < |ns| && EndOf(ns[j]) == dur
    requires idx == (repeats - 1) * |ns| + j
    ensures idx < |LoopNotes(ns, dur, repeats)|
    ensures EndOf(LoopNotes(ns, dur, repeats)[idx]) == (repeats as real) * dur
  {
    var k := repeats - 1;
    LoopNoteAt(ns, dur, repeats, k, j);
    ShiftedEnd(ns[j], k as real * dur);
    RealSucc(k, dur);
  }

  lemma DurationWitness(ns: seq<NoteData>) returns (j: nat)
    requires |ns| > 0
    ensures j < |ns| && EndOf(ns[j]) == Duration(ns)
  {
    j :| 0 <= j < |ns| && EndOf(ns[j]) == Duration(ns);
  }

  /** A loop of a sequence that lasts a non-negative time lasts `repeats`
      times as long as the sequence. */
  lemma LoopedDuration(d: SequenceData, repeats: nat, generatedId: string)
    requires |d.notes| > 0 && repeats > 0 && Duration(d.notes) >= 0.0
    ensures Duration(Looped(d, repeats, generatedId).notes) == (repeats as real) * Duration(d.notes)
  {
    var ns := d.notes;
    var dur := Duration(ns);
    var loop := LoopNotes(ns, dur, repeats);
    assert Looped(d, repeats, generatedId).notes == loop;
    LoopNotesEndBy(ns, dur, repeats, (repeats as real) * dur);
    var j := DurationWitness(ns);
    var idx := (repeats - 1) * |ns| + j;
    LastCopyReaches(ns, dur, repeats, j, idx);
    DurationUnique(loop, (repeats as real) * dur);
  }
}
