/**
 * Instrument consolidation before concatenating decoded note sequences
 * (flaskblog/routes.py, fix_instruments_for_concatenation), as values.
 *
 * Every note of every sequence is visited in scan order. Drum notes get
 * instrument 9, the number the code reserves for drums. A dictionary from MIDI
 * program to instrument number gives each new melodic program the next free
 * number (1..8, then 10, 11, ...), and every melodic note is stamped with its
 * program's number.
 *
 * This module is the specification: the table built by the scan, the notes as
 * they are afterwards, and what is promised about both.
 */
module InstrumentTable {

  /** The instrument number drum notes get, never given to a melodic program. */
  const DrumInstrument: int := 9

  /** How many programs are numbered 1..8 before numbering jumps over 9. */
  const NumbersBelowDrums: nat := 8

  /** What the consolidation reads and writes of a note. */
  datatype NoteRec = NoteRec(program: int, isDrum: bool, instrument: int)

  /** An instrument number a melodic program may receive: 1..8 or 10 and above. */
  predicate IsMelodicInstrument(c: int) {
    (1 <= c <= NumbersBelowDrums) || c > DrumInstrument
  }

  /** Instrument number for a new program when the dictionary already holds `size` entries. */
  function NextInstrument(size: nat): (c: int)
    ensures IsMelodicInstrument(c)
    ensures c < DrumInstrument <==> size < NumbersBelowDrums
  {
    if size >= NumbersBelowDrums then size + 2 else size + 1
  }

  /** One visit of a melodic note with program `p`: add `p` if it is new. */
  function Step(m: map<int, int>, p: int): map<int, int> {
    if p in m then m else m[p := NextInstrument(|m|)]
  }

  /** The dictionary after visiting the melodic programs `ps` in order. */
  function Table(ps: seq<int>): map<int, int> {
    if ps == [] then map[] else Step(Table(ps[..|ps| - 1]), ps[|ps| - 1])
  }

  /** Independent reference: the programs of `ps` in order of first appearance. */
  function Distinct(ps: seq<int>): seq<int> {
    if ps == [] then []
    else
      var d := Distinct(ps[..|ps| - 1]);
      if ps[|ps| - 1] in d then d else d + [ps[|ps| - 1]]
  }

  /** The programs of the melodic (non-drum) notes, in scan order. */
  function Programs(notes: seq<NoteRec>): seq<int> {
    if notes == [] then []
    else
      var last := notes[|notes| - 1];
      Programs(notes[..|notes| - 1]) + (if last.isDrum then [] else [last.program])
  }

  /** The note as the scan leaves it, given the dictionary `t`. */
  function Stamp(n: NoteRec, t: map<int, int>): NoteRec
    requires !n.isDrum ==> n.program in t
  {
    if n.isDrum then n.(instrument := DrumInstrument) else n.(instrument := t[n.program])
  }

  /** All notes, in scan order, as the consolidation leaves them. */
  function Consolidated(notes: seq<NoteRec>): (r: seq<NoteRec>)
    ensures |r| == |notes|
    ensures forall k :: 0 <= k < |notes| ==>
              r[k].program == notes[k].program && r[k].isDrum == notes[k].isDrum
  {
    var t := Table(Programs(notes));
    ProgramsInTable(notes);
    seq(|notes|, k requires 0 <= k < |notes| => Stamp(notes[k], t))
  }

  // ---------------------------------------------------------------------------
  // The first-appearance order

  lemma {:induction false} DistinctElements(ps: seq<int>)
    ensures forall p :: p in Distinct(ps) <==> p in ps
    ensures forall i, j :: 0 <= i < j < |Distinct(ps)| ==> Distinct(ps)[i] != Distinct(ps)[j]
  {
    if ps != [] {
      var init := ps[..|ps| - 1];
      DistinctElements(init);
      assert ps == init + [ps[|ps| - 1]];
    }
  }

  // ---------------------------------------------------------------------------
  // The dictionary

  /** The heart of the proof: the table numbers the distinct programs in order. */
  lemma {:induction false} TableNumbersDistinct(ps: seq<int>)
    ensures |Table(ps)| == |Distinct(ps)|
    ensures forall p :: p in Table(ps) <==> p in Distinct(ps)
    ensures forall k :: 0 <= k < |Distinct(ps)| ==>
              Distinct(ps)[k] in Table(ps) && Table(ps)[Distinct(ps)[k]] == NextInstrument(k)
  {
    if ps != [] {
      var init, p := ps[..|ps| - 1], ps[|ps| - 1];
      TableNumbersDistinct(init);
      DistinctElements(init);
      var t, d := Table(init), Distinct(init);
      if p !in d {
        assert Distinct(ps) == d + [p];
        assert Table(ps) == t[p := NextInstrument(|d|)];
        forall k | 0 <= k < |Distinct(ps)|
          ensures Table(ps)[Distinct(ps)[k]] == NextInstrument(k)
        {
          if k < |d| {
            assert Distinct(ps)[k] == d[k] != p;
          }
        }
      }
    }
  }

  /** Exactly the melodic programs seen get an entry. */
  lemma TableKeys(ps: seq<int>)
    ensures forall p :: p in Table(ps) <==> p in ps
  {
    TableNumbersDistinct(ps);
    DistinctElements(ps);
  }

  /**
   * The k-th distinct program in scan order (counting from 0) gets instrument
   * number k + 1 while k < 8, and k + 2 from then on, so 9 is skipped.
   */
  lemma FirstAppearanceNumbering(ps: seq<int>, k: nat)
    requires k < |Distinct(ps)|
    ensures Distinct(ps)[k] in Table(ps)
    ensures Table(ps)[Distinct(ps)[k]] == if k < NumbersBelowDrums then k + 1 else k + 2
  {
    TableNumbersDistinct(ps);
  }

  /** Every instrument number in the table is 1..8 or at least 10. */
  lemma TableNumbersMelodic(ps: seq<int>, p: int)
    requires p in Table(ps)
    ensures IsMelodicInstrument(Table(ps)[p])
    ensures Table(ps)[p] != DrumInstrument
  {
    TableNumbersDistinct(ps);
    var k :| 0 <= k < |Distinct(ps)| && Distinct(ps)[k] == p;
  }

  /** Two programs share an instrument number only if they are the same program. */
  lemma TableInjective(ps: seq<int>, p: int, q: int)
    requires p in Table(ps) && q in Table(ps)
    ensures Table(ps)[p] == Table(ps)[q] <==> p == q
  {
    TableNumbersDistinct(ps);
    DistinctElements(ps);
    var i :| 0 <= i < |Distinct(ps)| && Distinct(ps)[i] == p;
    var j :| 0 <= j < |Distinct(ps)| && Distinct(ps)[j] == q;
    if i < j {
      assert NextInstrument(i) < NextInstrument(j);
    } else if j < i {
      assert NextInstrument(j) < NextInstrument(i);
    }
  }

  /** An entry, once made, is never changed by later notes. */
  lemma {:induction false} TableGrows(ps: seq<int>, qs: seq<int>)
    ensures forall p :: p in Table(ps) ==> p in Table(ps + qs) && Table(ps + qs)[p] == Table(ps)[p]
  {
    if qs == [] {
      assert ps + qs == ps;
    } else {
      var init := qs[..|qs| - 1];
      TableGrows(ps, init);
      assert (ps + qs)[..|ps + qs| - 1] == ps + init;
    }
  }

  // ---------------------------------------------------------------------------
  // The notes

  lemma {:induction false} ProgramsMembership(notes: seq<NoteRec>)
    ensures forall p :: p in Programs(notes) <==>
              exists k :: 0 <= k < |notes| && !notes[k].isDrum && notes[k].program == p
  {
    if notes != [] {
      var init := notes[..|notes| - 1];
      ProgramsMembership(init);
      forall p | p in Programs(notes)
        ensures exists k :: 0 <= k < |notes| && !notes[k].isDrum && notes[k].program == p
      {
        if p in Programs(init) {
          var k :| 0 <= k < |init| && !init[k].isDrum && init[k].program == p;
          assert notes[k] == init[k];
        }
      }
      forall p, k | 0 <= k < |notes| && !notes[k].isDrum && notes[k].program == p
        ensures p in Programs(notes)
      {
        if k < |init| {
          assert init[k] == notes[k];
        }
      }
    }
  }

  /** The dictionary once the scan has visited the first `n` notes. */
  function ScanTable(notes: seq<NoteRec>, n: nat): map<int, int>
    requires n <= |notes|
  {
    Table(Programs(notes[..n]))
  }

  /** Visiting one more note in the scan is one Step, or nothing for a drum note. */
  lemma ScanOneMore(notes: seq<NoteRec>, n: nat)
    requires n < |notes|
    ensures ScanTable(notes, n + 1) ==
              if notes[n].isDrum then ScanTable(notes, n) else Step(ScanTable(notes, n), notes[n].program)
  {
    assert notes[..n + 1][..n] == notes[..n];
    var ps := Programs(notes[..n]);
    if notes[n].isDrum {
      assert Programs(notes[..n + 1]) == ps + [] == ps;
    } else {
      var p := notes[n].program;
      assert Programs(notes[..n + 1]) == ps + [p];
      assert (ps + [p])[..|ps|] == ps;
    }
  }

  lemma ProgramsInTable(notes: seq<NoteRec>)
    ensures forall k :: 0 <= k < |notes| && !notes[k].isDrum ==> notes[k].program in Table(Programs(notes))
  {
    ProgramsMembership(notes);
    TableKeys(Programs(notes));
  }

  /** Drum notes never add an entry: the table's keys are the melodic programs. */
  lemma DrumNotesAddNoEntry(notes: seq<NoteRec>, p: int)
    ensures p in Table(Programs(notes)) <==>
              exists k :: 0 <= k < |notes| && !notes[k].isDrum && notes[k].program == p
  {
    ProgramsMembership(notes);
    TableKeys(Programs(notes));
  }

  /** Every drum note ends on instrument 9. */
  lemma DrumNotesOnDrumInstrument(notes: seq<NoteRec>, k: nat)
    requires k < |notes| && notes[k].isDrum
    ensures Consolidated(notes)[k].instrument == DrumInstrument
  {
  }

  /** Every melodic note ends on 1..8 or 10 and above: never 0, never 9. */
  lemma MelodicNotesAvoidDrumInstrument(notes: seq<NoteRec>, k: nat)
    requires k < |notes| && !notes[k].isDrum
    ensures IsMelodicInstrument(Consolidated(notes)[k].instrument)
    ensures Consolidated(notes)[k].instrument != 0
    ensures Consolidated(notes)[k].instrument != DrumInstrument
  {
    ProgramsInTable(notes);
    TableNumbersMelodic(Programs(notes), notes[k].program);
  }

  /**
   * Two melodic notes, in the same or in different sequences, share an instrument number
   * exactly when they share a program.
   */
  lemma SameInstrumentIffSameProgram(notes: seq<NoteRec>, i: nat, j: nat)
    requires i < |notes| && j < |notes| && !notes[i].isDrum && !notes[j].isDrum
    ensures Consolidated(notes)[i].instrument == Consolidated(notes)[j].instrument
            <==> notes[i].program == notes[j].program
  {
    ProgramsInTable(notes);
    TableInjective(Programs(notes), notes[i].program, notes[j].program);
  }

  /** A melodic note's instrument number is fixed by where its program first appears. */
  lemma InstrumentByFirstAppearance(notes: seq<NoteRec>, i: nat, k: nat)
    requires i < |notes| && !notes[i].isDrum
    requires k < |Distinct(Programs(notes))| && Distinct(Programs(notes))[k] == notes[i].program
    ensures Consolidated(notes)[i].instrument == if k < NumbersBelowDrums then k + 1 else k + 2
  {
    FirstAppearanceNumbering(Programs(notes), k);
  }

  lemma {:induction false} ProgramsOfSameShape(a: seq<NoteRec>, b: seq<NoteRec>)
    requires |a| == |b|
    requires forall k :: 0 <= k < |a| ==> a[k].program == b[k].program && a[k].isDrum == b[k].isDrum
    ensures Programs(a) == Programs(b)
  {
    if a != [] {
      ProgramsOfSameShape(a[..|a| - 1], b[..|b| - 1]);
    }
  }

  /** Consolidating twice gives the same notes as consolidating once. */
  lemma ConsolidatedIdempotent(notes: seq<NoteRec>)
    ensures Consolidated(Consolidated(notes)) == Consolidated(notes)
  {
    ProgramsOfSameShape(Consolidated(notes), notes);
  }
}
