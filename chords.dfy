/**
 * Chord conditioning for the chord-conditioned decoder (flaskblog/routes.py):
 * chord_encoding builds a TotalSteps x ChordDepth matrix of zeros, sets
 * entry [0, 0], and sets column `index` of every later row; gen_chords decodes
 * bar i conditioned on the encoding of chords[i % 4].
 *
 * The chord-to-index encoder of the music library is not part of this model:
 * the index it returns is taken as an input in 0 .. ChordDepth - 1.
 */
module Chords {

  /** Steps of decoder output, one conditioning row each. */
  const TotalSteps: nat := 512

  /** Size of the one-hot triad chord vocabulary. */
  const ChordDepth: nat := 49

  /** How many chords the form offers; bars cycle through them. */
  const ChordsPerCycle: nat := 4

  /** The row that is 1.0 at column `hot` and 0.0 everywhere else. */
  function OneHotRow(hot: nat): (row: seq<real>)
    requires hot < ChordDepth
    ensures |row| == ChordDepth
    ensures forall k :: 0 <= k < ChordDepth ==> (row[k] == 1.0 <==> k == hot)
    ensures forall k :: 0 <= k < ChordDepth ==> row[k] == 0.0 || row[k] == 1.0
  {
    seq(ChordDepth, k => if k == hot then 1.0 else 0.0)
  }

  /** The conditioning matrix for chord index `index`, as a sequence of rows. */
  function ChordTensor(index: nat): (t: seq<seq<real>>)
    requires index < ChordDepth
    ensures |t| == TotalSteps
    ensures forall s :: 0 <= s < TotalSteps ==> |t[s]| == ChordDepth
    ensures forall s, k :: 0 <= s < TotalSteps && 0 <= k < ChordDepth ==>
              t[s][k] == if (s == 0 && k == 0) || (s > 0 && k == index) then 1.0 else 0.0
  {
    var t := seq(TotalSteps, s => OneHotRow(if s == 0 then 0 else index));
    assert forall s :: 0 <= s < TotalSteps ==> t[s] == OneHotRow(if s == 0 then 0 else index);
    t
  }

  /**
   * Builds the conditioning matrix in a fresh array: all zeros, then [0, 0]
   * and column `index` of rows 1 .. TotalSteps - 1 set to 1.0.
   */
  method ChordEncoding(index: nat) returns (c: array2<real>)
    requires index < ChordDepth
    ensures fresh(c)
    ensures c.Length0 == TotalSteps && c.Length1 == ChordDepth
    ensures forall s, k :: 0 <= s < TotalSteps && 0 <= k < ChordDepth ==> c[s, k] == ChordTensor(index)[s][k]
  {
    c := new real[TotalSteps, ChordDepth]((s, k) => 0.0);
    c[0, 0] := 1.0;
    var s := 1;
    while s < TotalSteps
      invariant 1 <= s <= TotalSteps
      invariant forall r, k :: 0 <= r < TotalSteps && 0 <= k < ChordDepth ==>
                  c[r, k] == (if r < s then ChordTensor(index)[r][k] else 0.0)
    {
      c[s, index] := 1.0;
      s := s + 1;
    }
  }

  // ---------------------------------------------------------------------------
  // Reading the matrix back

  /** How many entries of `row` are 1.0. */
  function CountOnes(row: seq<real>): nat {
    if row == [] then 0 else CountOnes(row[..|row| - 1]) + (if row[|row| - 1] == 1.0 then 1 else 0)
  }

  /** The first column of `row` that holds 1.0, or |row| when there is none. */
  function HotColumn(row: seq<real>): (k: nat)
    ensures k <= |row|
    ensures k < |row| ==> row[k] == 1.0
    ensures forall j :: 0 <= j < k ==> row[j] != 1.0
  {
    if row == [] then 0
    else if row[0] == 1.0 then 0
    else 1 + HotColumn(row[1..])
  }

  /** The chord index a conditioning matrix stands for, read from row 1. */
  function DecodeChordIndex(t: seq<seq<real>>): (index: nat)
    requires |t| > 1
  {
    HotColumn(t[1])
  }

  lemma {:induction false} CountOnesNone(row: seq<real>)
    requires forall j :: 0 <= j < |row| ==> row[j] != 1.0
    ensures CountOnes(row) == 0
  {
    if row != [] {
      CountOnesNone(row[..|row| - 1]);
    }
  }

  /** A row with a single 1.0 at `hot` counts exactly one 1.0. */
  lemma {:induction false} CountOnesSingle(row: seq<real>, hot: nat)
    requires hot < |row| && row[hot] == 1.0
    requires forall j :: 0 <= j < |row| && j != hot ==> row[j] != 1.0
    ensures CountOnes(row) == 1
  {
    var init := row[..|row| - 1];
    if hot == |row| - 1 {
      CountOnesNone(init);
    } else {
      CountOnesSingle(init, hot);
    }
  }

  /** Every row of the matrix holds exactly one 1.0, and all its other entries are 0.0. */
  lemma RowsAreOneHot(index: nat, s: nat)
    requires index < ChordDepth && s < TotalSteps
    ensures |ChordTensor(index)| == TotalSteps && |ChordTensor(index)[s]| == ChordDepth
    ensures CountOnes(ChordTensor(index)[s]) == 1
    ensures forall k :: 0 <= k < ChordDepth ==>
              ChordTensor(index)[s][k] == 0.0 || ChordTensor(index)[s][k] == 1.0
  {
    var hot := if s == 0 then 0 else index;
    CountOnesSingle(ChordTensor(index)[s], hot);
  }

  /** Row 0 is one-hot at column 0; every later row is one-hot at `index`. */
  lemma HotColumnOfRows(index: nat, s: nat)
    requires index < ChordDepth && s < TotalSteps
    ensures HotColumn(ChordTensor(index)[s]) == if s == 0 then 0 else index
  {
    var row := ChordTensor(index)[s];
    var hot := if s == 0 then 0 else index;
    var k := HotColumn(row);
    assert k < |row| ==> row[k] == 1.0;
    assert row[hot] == 1.0;
  }

  /** Decoding the matrix gives back the chord index it was built from. */
  lemma DecodeEncode(index: nat)
    requires index < ChordDepth
    ensures DecodeChordIndex(ChordTensor(index)) == index
  {
    HotColumnOfRows(index, 1);
  }

  /** Different chord indices give different matrices. */
  lemma ChordTensorInjective(a: nat, b: nat)
    requires a < ChordDepth && b < ChordDepth
    ensures ChordTensor(a) == ChordTensor(b) <==> a == b
  {
    DecodeEncode(a);
    DecodeEncode(b);
  }

  // ---------------------------------------------------------------------------
  // Chords per bar

  /** The chord of each of `numBars` bars: bar i plays chords[i % 4]. */
  function BarChords<C>(chords: seq<C>, numBars: nat): (r: seq<C>)
    requires |chords| == ChordsPerCycle
  {
    seq(numBars, i requires 0 <= i < numBars => chords[i % ChordsPerCycle])
  }

  /** The first four bars play the four chords in the order given. */
  lemma BarChordsStartInOrder<C>(chords: seq<C>, numBars: nat)
    requires |chords| == ChordsPerCycle && numBars >= ChordsPerCycle
    ensures BarChords(chords, numBars)[..ChordsPerCycle] == chords
  {
    var r := BarChords(chords, numBars);
    forall i | 0 <= i < ChordsPerCycle
      ensures r[i] == chords[i]
    {
      assert i % ChordsPerCycle == i;
    }
  }

  /** After four bars the chords repeat, and every bar plays one of the four chords. */
  lemma BarChordsCycle<C>(chords: seq<C>, numBars: nat, i: nat)
    requires |chords| == ChordsPerCycle && i < numBars
    ensures |BarChords(chords, numBars)| == numBars
    ensures BarChords(chords, numBars)[i] in chords
    ensures i + ChordsPerCycle < numBars ==>
              BarChords(chords, numBars)[i + ChordsPerCycle] == BarChords(chords, numBars)[i]
  {
    assert (i + ChordsPerCycle) % ChordsPerCycle == i % ChordsPerCycle;
  }

  /** The conditioning matrices of the bars, chords given by their encoded indices. */
  function BarConditioning(indices: seq<nat>, numBars: nat): (r: seq<seq<seq<real>>>)
    requires |indices| == ChordsPerCycle
    requires forall j :: 0 <= j < |indices| ==> indices[j] < ChordDepth
  {
    seq(numBars, i requires 0 <= i < numBars => ChordTensor(BarChords(indices, numBars)[i]))
  }

  /** Bar i is conditioned on chord i % 4: its matrix decodes to that chord's index. */
  lemma BarConditionedOnCycledChord(indices: seq<nat>, numBars: nat, i: nat)
    requires |indices| == ChordsPerCycle
    requires forall j :: 0 <= j < |indices| ==> indices[j] < ChordDepth
    requires i < numBars
    ensures |BarConditioning(indices, numBars)| == numBars
    ensures DecodeChordIndex(BarConditioning(indices, numBars)[i]) == indices[i % ChordsPerCycle]
  {
    DecodeEncode(indices[i % ChordsPerCycle]);
  }
}
