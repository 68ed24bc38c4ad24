// The sharp-spelled note-name table that several of the modelled files
// declare identically (`NOTE_NAMES`, `noteNames`), with `indexOf` on it.
module NoteNames {

  const NOTE_NAMES: seq<string> := ["C", "C#", "D", "D#", "E", "F", "F#", "G", "G#", "A", "A#", "B"]

  function LetterIndex(c: char): int {
    match c
    case 'C' => 0
    case 'D' => 2
    case 'E' => 4
    case 'F' => 5
    case 'G' => 7
    case 'A' => 9
    case 'B' => 11
    case _ => -1
  }

  /** `NOTE_NAMES.indexOf(name)`, read off the spelling: a natural letter, or
      one of C D F G A followed by '#'. */
  function NoteIndex(name: string): (k: int)
    ensures -1 <= k < 12
  {
    if |name| == 1 then LetterIndex(name[0])
    else if |name| == 2 && name[1] == '#' && name[0] in "CDFGA" then LetterIndex(name[0]) + 1
    else -1
  }

  /** NoteIndex is `NOTE_NAMES.indexOf`: it finds the position of every
      name in the table and -1 for every other string. */
  lemma NoteIndexIsIndexOf(name: string)
    ensures NoteIndex(name) >= 0 ==> NOTE_NAMES[NoteIndex(name)] == name
    ensures NoteIndex(name) == -1 <==> name !in NOTE_NAMES
    ensures forall k :: 0 <= k < 12 ==> NoteIndex(NOTE_NAMES[k]) == k
  {
    NoteIndexOfNames();
    if NoteIndex(name) == -1 {
      forall k | 0 <= k < 12 ensures NOTE_NAMES[k] != name {
        assert NoteIndex(NOTE_NAMES[k]) == k;
      }
    }
  }

  /** A name with an index is the table entry at that index. */
  lemma NameAtIndex(name: string)
    requires NoteIndex(name) >= 0
    ensures NOTE_NAMES[NoteIndex(name)] == name
  {
    assert name == [name[0]] || name == [name[0], '#'];
  }

  lemma NoteIndexOfNames()
    ensures forall k :: 0 <= k < 12 ==> NoteIndex(NOTE_NAMES[k]) == k
  {
  }
}
