// The `noteMap` table of sharp and flat spellings that
// routes/musicTheoryRoutes.js (getScaleNotes) and src/server/api/musicTheory.js
// (getMidiNote) declare identically, with the spelling rule it follows.
module NoteMap {
  import opened JsSupport
  import opened NoteNames

  /** The `noteMap` table: sharp and flat spellings of the twelve pitch
      classes. */
  const NOTE_MAP: seq<(string, int)> := [
    ("C", 0), ("C#", 1), ("Db", 1), ("D", 2), ("D#", 3), ("Eb", 3),
    ("E", 4), ("F", 5), ("F#", 6), ("Gb", 6), ("G", 7), ("G#", 8),
    ("Ab", 8), ("A", 9), ("A#", 10), ("Bb", 10), ("B", 11)
  ]

  /** `[A-G]`. */
  predicate IsLetter(c: char) {
    'A' <= c <= 'G'
  }

  /** `noteMap[name]`, read off the spelling: a sharp or natural name is
      its position in the sharp table, and D E G A B followed by 'b' is one
      semitone below the letter. */
  function NoteMapSemitone(name: string): (r: Option<int>)
    ensures r.Some? ==> 0 <= r.value < 12
    ensures r.Some? ==> 1 <= |name| <= 2 && IsLetter(name[0]) && (|name| == 2 ==> name[1] == '#' || name[1] == 'b')
  {
    if NoteIndex(name) >= 0 then Some(NoteIndex(name))
    else if |name| == 2 && name[1] == 'b' && name[0] in "DEGAB" then Some(LetterIndex(name[0]) - 1)
    else None
  }

  /** The row of each sharp name in `noteMap`. */
  const SHARP_ROWS: seq<int> := [0, 1, 3, 4, 6, 7, 8, 10, 11, 13, 14, 16]

  lemma NoteMapRows()
    ensures forall i :: 0 <= i < |NOTE_MAP| ==> NoteMapSemitone(NOTE_MAP[i].0) == Some(NOTE_MAP[i].1)
    ensures forall k :: 0 <= k < 12 ==> 0 <= SHARP_ROWS[k] < |NOTE_MAP| && NOTE_MAP[SHARP_ROWS[k]].0 == NOTE_NAMES[k]
  {
  }

  /** The spelling rule is exactly the `noteMap` table: a name has
      semitone `v` by the rule if and only if `(name, v)` is a row. */
  lemma NoteMapSemitoneIsTable(name: string, v: int)
    ensures NoteMapSemitone(name) == Some(v) <==> (name, v) in NOTE_MAP
  {
    NoteMapRows();
    var r := NoteMapSemitone(name);
    if (name, v) in NOTE_MAP {
      var j :| 0 <= j < |NOTE_MAP| && NOTE_MAP[j] == (name, v);
    } else if r == Some(v) && NoteIndex(name) >= 0 {
      NameAtIndex(name);
    } else if r == Some(v) {
      FlatRows(name, v);
    }
  }

  lemma FlatRows(name: string, v: int)
    requires NoteIndex(name) < 0 && NoteMapSemitone(name) == Some(v)
    ensures (name, v) in NOTE_MAP
  {
    assert name == [name[0], 'b'];
    if name[0] == 'D' {
      assert NOTE_MAP[2] == (name, v);
    } else if name[0] == 'E' {
      assert NOTE_MAP[5] == (name, v);
    } else if name[0] == 'G' {
      assert NOTE_MAP[9] == (name, v);
    } else if name[0] == 'A' {
      assert NOTE_MAP[12] == (name, v);
    } else {
      assert NOTE_MAP[15] == (name, v);
    }
  }

  /** A note name holds no digit. */
  lemma NoteNameHasNoDigit(name: string, q: int)
    requires NoteMapSemitone(name).Some? && 0 <= q < |name|
    ensures !IsDigit(name[q])
  {
  }

  /** The sharp names are rows of `noteMap` with their own semitone. */
  lemma SharpNamesInNoteMap(k: int)
    requires 0 <= k < 12
    ensures (NOTE_NAMES[k], k) in NOTE_MAP
  {
    NoteIndexOfNames();
    NoteMapSemitoneIsTable(NOTE_NAMES[k], k);
  }
}
