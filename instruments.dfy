/**
 * fix_instruments_for_concatenation (flaskblog/routes.py) as the source runs
 * it: nested loops over the caller's note sequences, a dictionary grown in
 * place, and each note's `instrument` field overwritten.
 *
 * The method is proved against InstrumentTable.Consolidated: afterwards the
 * notes, read in scan order, are exactly the consolidated notes of what they
 * were before. What is promised about Consolidated is proved there.
 */
module Instruments {
  import opened InstrumentTable

  /** A note of a decoded sequence; only the fields the consolidation uses. */
  class Note {
    var program: int
    var isDrum: bool
    var instrument: int

    constructor (program: int, isDrum: bool, instrument: int)
      ensures this.program == program && this.isDrum == isDrum && this.instrument == instrument
    {
      this.program := program;
      this.isDrum := isDrum;
      this.instrument := instrument;
    }
  }

  /** A decoded note sequence: its notes in order. */
  class NoteSequence {
    var notes: seq<Note>

    constructor (notes: seq<Note>)
      ensures this.notes == notes
    {
      this.notes := notes;
    }
  }

  /** The sequences' note lists, read from the heap. */
  ghost function NotesOf(seqs: seq<NoteSequence>): (r: seq<seq<Note>>)
    reads seqs
    ensures |r| == |seqs|
    ensures forall i :: 0 <= i < |seqs| ==> r[i] == seqs[i].notes
  {
    seq(|seqs|, i reads seqs requires 0 <= i < |seqs| => seqs[i].notes)
  }

  /** The lists of `xss` one after another. */
  function Flatten<T>(xss: seq<seq<T>>): seq<T> {
    if xss == [] then [] else Flatten(xss[..|xss| - 1]) + xss[|xss| - 1]
  }

  /** Every note of every sequence, in the order the scan visits them. */
  ghost function AllNotes(seqs: seq<NoteSequence>): seq<Note>
    reads seqs
  {
    Flatten(NotesOf(seqs))
  }

  /** The values the consolidation reads and writes, note by note. */
  ghost function Snapshot(notes: seq<Note>): (r: seq<NoteRec>)
    reads notes
    ensures |r| == |notes|
    ensures forall k :: 0 <= k < |notes| ==>
              r[k] == NoteRec(notes[k].program, notes[k].isDrum, notes[k].instrument)
  {
    seq(|notes|, k reads notes requires 0 <= k < |notes| =>
      NoteRec(notes[k].program, notes[k].isDrum, notes[k].instrument))
  }

  /** The lists of the first `i` entries come first. */
  lemma {:induction false} FlattenPrefix<T>(xss: seq<seq<T>>, i: nat)
    requires i <= |xss|
    ensures |Flatten(xss[..i])| <= |Flatten(xss)|
    ensures Flatten(xss)[..|Flatten(xss[..i])|] == Flatten(xss[..i])
  {
    if i == |xss| {
      assert xss[..i] == xss;
    } else {
      var init := xss[..|xss| - 1];
      FlattenPrefix(init, i);
      assert init[..i] == xss[..i];
    }
  }

  /** Where list `i` sits in the flattened sequence. */
  lemma FlattenSlice<T>(xss: seq<seq<T>>, i: nat)
    requires i < |xss|
    ensures |Flatten(xss[..i])| + |xss[i]| == |Flatten(xss[..i + 1])| <= |Flatten(xss)|
    ensures forall k :: 0 <= k < |xss[i]| ==> Flatten(xss)[|Flatten(xss[..i])| + k] == xss[i][k]
    ensures forall x :: x in xss[i] ==> x in Flatten(xss)
  {
    FlattenPrefix(xss, i + 1);
    assert xss[..i + 1][..i] == xss[..i];
    var base := Flatten(xss[..i]);
    assert Flatten(xss[..i + 1]) == base + xss[i];
    forall k | 0 <= k < |xss[i]|
      ensures Flatten(xss)[|base| + k] == xss[i][k]
    {
      assert Flatten(xss)[|base| + k] == Flatten(xss[..i + 1])[|base| + k];
    }
    forall x | x in xss[i]
      ensures x in Flatten(xss)
    {
      var k :| 0 <= k < |xss[i]| && xss[i][k] == x;
      assert Flatten(xss)[|base| + k] == x;
    }
  }

  /**
   * The scan has visited the first `done` notes of `flat`, whose values on entry
   * were `before`: the dictionary is the table of the melodic programs seen so
   * far, no program or drum flag has changed, and every visited note carries
   * the instrument number the dictionary gives it.
   */
  ghost predicate Scanned(flat: seq<Note>, before: seq<NoteRec>, instruments: map<int, int>, done: nat)
    reads flat
  {
    && |flat| == |before| && done <= |flat|
    && instruments == ScanTable(before, done)
    && (forall k :: 0 <= k < |flat| ==>
          flat[k].program == before[k].program && flat[k].isDrum == before[k].isDrum)
    && (forall k :: 0 <= k < done ==>
          (!before[k].isDrum ==> before[k].program in instruments) &&
          flat[k].instrument == Stamp(before[k], instruments).instrument)
  }

  /** Once every note is visited, the notes are the consolidated notes. */
  lemma ScanComplete(flat: seq<Note>, before: seq<NoteRec>, instruments: map<int, int>)
    requires Scanned(flat, before, instruments, |flat|)
    ensures Snapshot(flat) == Consolidated(before)
  {
    assert before[..|flat|] == before;
  }

  /**
   * The body of the scan for one note, the note at position `done` of the
   * scan: a drum note gets instrument 9; any other note first gives its
   * program the next free instrument number if it has none, then takes its
   * program's number.
   */
  method VisitNote(note: Note, instruments: map<int, int>,
                   ghost flat: seq<Note>, ghost before: seq<NoteRec>, ghost done: nat)
    returns (updated: map<int, int>)
    requires done < |flat| && flat[done] == note
    requires Scanned(flat, before, instruments, done)
    modifies note
    ensures updated == if note.isDrum then instruments else Step(instruments, note.program)
    ensures note.instrument == if note.isDrum then DrumInstrument else updated[note.program]
    ensures Scanned(flat, before, updated, done + 1)
  {
    ScanOneMore(before, done);
    updated := instruments;
    if !note.isDrum {
      if note.program !in updated {
        if |updated| >= NumbersBelowDrums {
          updated := updated[note.program := |updated| + 2];
        } else {
          updated := updated[note.program := |updated| + 1];
        }
      }
      note.instrument := updated[note.program];
    } else {
      note.instrument := DrumInstrument;
    }
    forall k | 0 <= k <= done
      ensures (!before[k].isDrum ==> before[k].program in updated) &&
              flat[k].instrument == Stamp(before[k], updated).instrument
    {
      if k < done && flat[k] != note {
        assert !before[k].isDrum ==> updated[before[k].program] == instruments[before[k].program];
      }
    }
  }

  /**
   * The inner loop of the scan: visits the notes of sequence `i` in order.
   */
  method StampNotes(notes: seq<Note>, instruments: map<int, int>, ghost structure: seq<seq<Note>>,
                    ghost i: nat, ghost before: seq<NoteRec>)
    returns (updated: map<int, int>)
    requires i < |structure| && notes == structure[i]
    requires Scanned(Flatten(structure), before, instruments, |Flatten(structure[..i])|)
    modifies notes
    ensures Scanned(Flatten(structure), before, updated, |Flatten(structure[..i + 1])|)
  {
    ghost var flat := Flatten(structure);
    ghost var base := |Flatten(structure[..i])|;
    FlattenSlice(structure, i);
    updated := instruments;
    var j := 0;
    while j < |notes|
      invariant 0 <= j <= |notes|
      invariant Scanned(flat, before, updated, base + j)
    {
      var note := notes[j];
      updated := VisitNote(note, updated, flat, before, base + j);
      j := j + 1;
    }
  }

  /**
   * Walks every note of every sequence; drum notes get instrument 9, every other
   * note the instrument number of its program, a new program taking the next
   * free number (1..8, then 10 and up). Only `instrument` fields are written.
   */
  method FixInstrumentsForConcatenation(noteSequences: seq<NoteSequence>)
    modifies AllNotes(noteSequences)
    ensures AllNotes(noteSequences) == old(AllNotes(noteSequences))
    ensures forall i :: 0 <= i < |noteSequences| ==> noteSequences[i].notes == old(noteSequences[i].notes)
    ensures Snapshot(AllNotes(noteSequences)) == Consolidated(old(Snapshot(AllNotes(noteSequences))))
  {
    ghost var structure := NotesOf(noteSequences);
    ghost var flat := Flatten(structure);
    ghost var before := Snapshot(flat);
    ghost var done := 0;
    var instruments: map<int, int> := map[];
    var i := 0;
    while i < |noteSequences|
      invariant 0 <= i <= |noteSequences|
      invariant forall k :: 0 <= k < |noteSequences| ==> noteSequences[k].notes == structure[k]
      invariant done == |Flatten(structure[..i])|
      invariant Scanned(flat, before, instruments, |Flatten(structure[..i])|)
    {
      var notes := noteSequences[i].notes;
      FlattenSlice(structure, i);
      instruments := StampNotes(notes, instruments, structure, i, before);
      done := done + |notes|;
      i := i + 1;
    }
    assert structure[..i] == structure;
    assert NotesOf(noteSequences) == structure;
    ScanComplete(flat, before, instruments);
  }
}
