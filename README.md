# Music-Generator: instrument consolidation and chord conditioning

The web application generates short clips with a pretrained MusicVAE model. Around
the model calls, `flaskblog/routes.py` holds two small deterministic helpers, and
this project models them and proves what they promise.

- **Instrument consolidation** (`fix_instruments_for_concatenation`). Decoded note
  sequences are about to be concatenated, so every note of every sequence is
  visited in scan order. A drum note gets instrument 9, the number the code
  reserves for drums. A dictionary maps each MIDI program seen on a melodic
  (non-drum) note to an instrument number. A new program takes number `len + 1`
  while the dictionary holds fewer than 8 entries, and `len + 2` after that, so 9
  is skipped. Each melodic note is then stamped with its program's number.
  - `InstrumentTable` (instrument_table.dfy) states on values what the scan computes.
    `Table` is the dictionary after a run of programs. `Distinct` lists the programs
    in order of first appearance and is the reference the table is checked against.
    `Consolidated` gives the notes as the scan leaves them.
  - `Instruments` (instruments.dfy) is the code as written. `Note` and `NoteSequence`
    are classes with mutable fields. The dictionary is a `map<int, int>` that the
    method grows in place. `FixInstrumentsForConcatenation` is proved to leave the
    notes, read in scan order, equal to `Consolidated` of their values before the
    call. The nested loop is split in three methods so that each proof stays small:
    `FixInstrumentsForConcatenation` is the loop over sequences, `StampNotes` the
    loop over one sequence's notes, and `VisitNote` the body for one note.
- **Chord conditioning** (`chord_encoding` and the per-bar chord choice in
  `gen_chords`), in `Chords` (chords.dfy). `ChordEncoding` fills a fresh 512 × 49
  `array2<real>` with zeros, sets `[0, 0]`, and sets column `index` of rows 1..511.
  It is proved equal to the value `ChordTensor(index)`. Every row of that value is
  one-hot. `HotColumn` reads a row back, and decoding gives back `index`. Bar `i` of
  `gen_chords` is conditioned on `chords[i % 4]`.

Both helpers work in place: the code overwrites `note.instrument` on the caller's
sequences and fills a numpy array by element and slice assignment. The model
follows the code.

## Model

| member | source | states |
|---|---|---|
| `InstrumentTable.NextInstrument` | flaskblog/routes.py:74-77 | a new program's instrument number is 1..8 or at least 10, and it is below 9 exactly when fewer than 8 programs are already in the dictionary |
| `InstrumentTable.DistinctElements` | flaskblog/routes.py:73 | the first-appearance list holds exactly the programs of the run, each once |
| `InstrumentTable.TableNumbersDistinct` | flaskblog/routes.py:73-77 | the dictionary has one entry per distinct program, its keys are those programs, and the k-th program in order of first appearance maps to the k-th instrument number |
| `InstrumentTable.TableKeys` | flaskblog/routes.py:72-77 | a program has an entry exactly when some melodic note of the run has it |
| `InstrumentTable.FirstAppearanceNumbering` | flaskblog/routes.py:74-77 | the k-th distinct program (from 0) gets instrument number k + 1 when k < 8 and k + 2 otherwise |
| `InstrumentTable.TableNumbersMelodic` | flaskblog/routes.py:74-77 | every instrument number in the dictionary is 1..8 or at least 10, never 9 |
| `InstrumentTable.TableInjective` | flaskblog/routes.py:73-77 | two programs in the dictionary share an instrument number if and only if they are the same program |
| `InstrumentTable.TableGrows` | flaskblog/routes.py:73-78 | an entry, once made, keeps its instrument number through any later notes |
| `InstrumentTable.ScanOneMore` | flaskblog/routes.py:71-80 | visiting one more note adds its program (if new) for a melodic note and leaves the dictionary alone for a drum note |
| `InstrumentTable.ProgramsMembership` | flaskblog/routes.py:71-72 | a program is among the scanned melodic programs exactly when some non-drum note has it |
| `InstrumentTable.ProgramsInTable` | flaskblog/routes.py:72-78 | after the scan every melodic note's program has an instrument number, so the lookup on line 78 never fails |
| `InstrumentTable.Consolidated` | flaskblog/routes.py:68-80 | only `instrument` changes: the same number of notes, each with its program and drum flag unchanged |
| `InstrumentTable.DrumNotesAddNoEntry` | flaskblog/routes.py:72-80 | the dictionary's keys are exactly the programs of non-drum notes, so drum notes add nothing |
| `InstrumentTable.DrumNotesOnDrumInstrument` | flaskblog/routes.py:79-80 | every drum note ends on instrument 9 |
| `InstrumentTable.MelodicNotesAvoidDrumInstrument` | flaskblog/routes.py:74-78 | every melodic note ends on 1..8 or 10 and above, never 0 and never 9 |
| `InstrumentTable.SameInstrumentIffSameProgram` | flaskblog/routes.py:73-78 | two melodic notes, in the same or different sequences, share an instrument number if and only if they share a program |
| `InstrumentTable.InstrumentByFirstAppearance` | flaskblog/routes.py:73-78 | a melodic note whose program is the k-th to appear ends on instrument number k + 1 (k < 8) or k + 2 |
| `InstrumentTable.ProgramsOfSameShape` | flaskblog/routes.py:72-73 | the scanned programs depend only on each note's program and drum flag |
| `InstrumentTable.ConsolidatedIdempotent` | flaskblog/routes.py:68-80 | running the consolidation on its own output changes nothing |
| `Instruments.FlattenSlice` | flaskblog/routes.py:70-71 | the notes of sequence i occupy the next block of the scan order, after those of sequences 0..i-1 |
| `Instruments.ScanComplete` | flaskblog/routes.py:68-80 | once every note is visited, the notes are the consolidated notes |
| `Instruments.VisitNote` | flaskblog/routes.py:72-80 | one note: the dictionary takes one `Step` (none for a drum), the note gets 9 or its program's instrument number, and the scan invariant moves one note on |
| `Instruments.StampNotes` | flaskblog/routes.py:71-80 | the inner loop carries the scan invariant across all notes of one sequence |
| `Instruments.FixInstrumentsForConcatenation` | flaskblog/routes.py:68-80 | afterwards the notes in scan order equal `Consolidated` of their values before; sequences and their note lists are unchanged |
| `Chords.OneHotRow` | flaskblog/routes.py:57-58 | a row of 49 entries, each 0.0 or 1.0, with 1.0 exactly at the hot column |
| `Chords.ChordTensor` | flaskblog/routes.py:56-58 | a 512 × 49 matrix whose entry [s][k] is 1.0 at [0][0] and at column `index` of rows 1..511, and 0.0 everywhere else |
| `Chords.ChordEncoding` | flaskblog/routes.py:54-59 | a fresh 512 × 49 array whose every entry equals the one of `ChordTensor(index)` |
| `Chords.HotColumn` | flaskblog/routes.py:57-58 | the first column holding 1.0, with no 1.0 before it, or the row length when there is none |
| `Chords.CountOnesSingle` | flaskblog/routes.py:57-58 | a row with a single 1.0 counts exactly one 1.0 |
| `Chords.RowsAreOneHot` | flaskblog/routes.py:56-58 | every row of the matrix has exactly one 1.0 and all its entries are 0.0 or 1.0 |
| `Chords.HotColumnOfRows` | flaskblog/routes.py:57-58 | the 1.0 of row 0 is at column 0 and that of every later row is at `index` |
| `Chords.DecodeEncode` | flaskblog/routes.py:55-58 | reading the matrix back gives the chord index it was built from |
| `Chords.ChordTensorInjective` | flaskblog/routes.py:55-58 | two chord indices give the same matrix if and only if they are equal |
| `Chords.BarChordsStartInOrder` | flaskblog/routes.py:235-254 | with at least four bars, bars 0..3 play the four chords in the order given |
| `Chords.BarChordsCycle` | flaskblog/routes.py:250-254 | every bar plays one of the four chords, and bar i + 4 plays the same chord as bar i |
| `Chords.BarConditionedOnCycledChord` | flaskblog/routes.py:250-254 | the conditioning matrix of bar i decodes to the index of chord i % 4 |

## Left out

- Flask routes, templates, redirects, flash messages, `login_required` and `current_user` (flaskblog/routes.py:83-290): web-framework glue.
- Registration, login and account update (flaskblog/routes.py:96-165): bcrypt hashing and database session I/O.
- `save_picture` (flaskblog/routes.py:133-144): random file names, filesystem paths and image thumbnailing.
- `slerp` and the `np.linspace` latent interpolation (flaskblog/routes.py:46-50,183-184,247-248): floating-point trigonometry.
- `TrainedModel`, `model.decode`, `concatenate_sequences` and `sequence_proto_to_midi_file`: calls into the generative-model library. The `z[i:i+1, :]` slice handed to `model.decode` goes with them.
- `TriadChordOneHotEncoding.encode_event` (flaskblog/routes.py:55): a library call. Its result is an input of `ChordEncoding`, required to lie in 0..48. `BarConditioning` takes the four chords already encoded.
- `trim_sequences` (flaskblog/routes.py:62-65): it delegates to the library's `extract_subsequence` and only sets a float `total_time`.
- `play`, the `os.system` calls to fluidsynth and lame, `os.rename` and `os.remove` (flaskblog/routes.py:39-43,202-213,272-283): subprocess and filesystem I/O.
- `proxy_find_library` (flaskblog/routes.py:21-26): patching of the foreign-library loader.
- Note fields other than `program`, `is_drum` and `instrument` (pitch, velocity, timing): the consolidation neither reads nor writes them.
- `Chords.ChordEncoding`: entries are `real` rather than 64-bit floats, which is exact here because only 0.0 and 1.0 are ever stored.
