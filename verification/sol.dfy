/** `get_notes_index` of sol/sol.py: the older builder that fills per-string
    lists of note labels and frequency texts for a guitar and a bass. */
module Sol {
  import opened Wrappers
  import opened Decimal
  import opened Pitch
  import opened Fretless
  import opened Fretboard

  /** `BASS_TUNINGS['E-A-D-G']['notation']`. */
  const BASS_NOTATION: seq<string> := ["E1", "A1", "D2", "G2"]

  /** `range(3, 100)`: the loop index is also the exponent of `get_frequency`. */
  const FIRST_INDEX: nat := 3
  const END_INDEX: nat := 100

  /** A row is appended to only while its length is at most 24. */
  const ROW_APPEND_LIMIT: nat := 24

  // ---------------------------------------------------------------------------
  // Labels.

  /** The label at loop index i: the generator's name, which is `NOTES[(i - 3) mod 12]`
      because the generator starts at C when i = 3, followed by the octave
      counter, which is i div 12. */
  function SolLongNote(i: nat): string
  {
    NOTES[(i + 9) % 12] + NatToString(i / 12)
  }

  /** The counter is set to i div 12 only when 12 divides i, yet names start at
      i = 3: so the label's octave turns over at A, not C. Names C..G# get the
      long note three steps back, names A, A#, B one octave up. */
  lemma {:induction false} SolLongNoteAsLongNote(i: nat)
    ensures (i + 9) % 12 < 9 ==> i >= 3 && SolLongNote(i) == LongNote(i - 3)
    ensures (i + 9) % 12 >= 9 ==> SolLongNote(i) == LongNote(i + 9)
  {
    if (i + 9) % 12 < 9 {
      assert (i - 3) % 12 == (i + 9) % 12 && (i - 3) / 12 == i / 12;
    } else {
      assert (i + 9) / 12 == i / 12;
    }
  }

  /** The sol loop index that carries the label of fretless sweep step k. */
  function SolOfStep(k: nat): nat
  {
    if k % 12 < 9 then k + 3 else k - 9
  }

  /** The fretless sweep step whose long note is the label of sol loop index i. */
  function StepOfSol(i: nat): int
  {
    if (i + 9) % 12 < 9 then i - 3 else i + 9
  }

  lemma StepSolInverse(i: nat, k: nat)
    ensures StepOfSol(i) >= 0 && SolOfStep(StepOfSol(i) as nat) == i
    ensures StepOfSol(SolOfStep(k)) == k
  {
    if (i + 9) % 12 < 9 {
      assert i >= 3 && (i - 3) % 12 == (i + 9) % 12;
    } else {
      assert (i + 9) % 12 == (i + 21) % 12;
    }
    if k % 12 < 9 {
      assert (k + 12) % 12 == k % 12;
    } else {
      assert (k - 9 + 9) % 12 == k % 12;
    }
  }

  /** The sol loop index whose label is x, if any. */
  function SolIndex(x: string): (r: Option<nat>)
  {
    match ParseLongNote(x)
    case None => None
    case Some(k) => Some(SolOfStep(k))
  }

  /** The label of loop index i equals x exactly when x reads back to i. */
  lemma {:induction false} SolLongNoteMatches(x: string, i: nat)
    ensures SolLongNote(i) == x <==> SolIndex(x) == Some(i)
  {
    SolLongNoteAsLongNote(i);
    StepSolInverse(i, 0);
    var k := StepOfSol(i) as nat;
    assert SolLongNote(i) == LongNote(k);
    LongNoteMatches(x, k);
    if SolIndex(x) == Some(i) {
      var p := ParseLongNote(x).value;
      assert SolOfStep(p) == i;
      StepSolInverse(i, p);
      assert p == k;
    }
  }

  /** Loop index 24 is labelled "A2" and paired with `get_frequency(24)`, which is
      exactly 55 Hz, the pitch the fretless builder labels "A1". */
  lemma {:induction false} SolOctaveAtA()
    ensures SolLongNote(24) == "A2" && LongNote(21) == "A1"
    ensures ExactFrequencyText(24) == Some("55.00")
  {
    assert NatToString(2) == "2";
    assert NatToString(1) == "1";
    DefaultStartAnchors();
  }

  /** The two builders side by side. Sol's frequency at loop index i is
      `get_frequency(i)`. The fretless sweep step whose long note is sol's label
      for i pairs that label with the same frequency for the names C..G#, and
      with the frequency one octave higher for A, A# and B. */
  lemma {:induction false} SolFrequencyOffset(cfg: Config, i: nat)
    requires FIRST_INDEX <= i
    ensures TakeFrequencies(FrequencyGenerator(FIRST_INDEX), i - FIRST_INDEX + 1).0[i - FIRST_INDEX] == Frequency(i)
    ensures (i + 9) % 12 < 9 ==>
              && Draw(Run(cfg, i - 3), i - 3).noteLong == SolLongNote(i)
              && Draw(Run(cfg, i - 3), i - 3).freq == Frequency(i)
    ensures (i + 9) % 12 >= 9 ==>
              && Draw(Run(cfg, i + 9), i + 9).noteLong == SolLongNote(i)
              && Draw(Run(cfg, i + 9), i + 9).freq == Frequency(i + 12)
  {
    SolFrequencyAt(i);
    if (i + 9) % 12 < 9 {
      SolOffsetBelowA(cfg, i);
    } else {
      SolOffsetFromA(cfg, i);
    }
  }

  /** Names C..G#: fretless step i - 3 carries sol's label and frequency for i. */
  lemma {:induction false} SolOffsetBelowA(cfg: Config, i: nat)
    requires FIRST_INDEX <= i && (i + 9) % 12 < 9
    ensures Draw(Run(cfg, i - 3), i - 3).noteLong == SolLongNote(i)
    ensures Draw(Run(cfg, i - 3), i - 3).freq == Frequency(i)
  {
    var k := i - 3;
    assert k + DEFAULT_START == i;
    SolLongNoteAsLongNote(i);
    assert SolLongNote(i) == LongNote(k);
    FretlessDrawAt(cfg, k);
  }

  /** Names A, A#, B: fretless step i + 9 carries sol's label for i, one octave up. */
  lemma {:induction false} SolOffsetFromA(cfg: Config, i: nat)
    requires (i + 9) % 12 >= 9
    ensures Draw(Run(cfg, i + 9), i + 9).noteLong == SolLongNote(i)
    ensures Draw(Run(cfg, i + 9), i + 9).freq == Frequency(i + 12)
  {
    var k := i + 9;
    SolLongNoteAsLongNote(i);
    FretlessDrawAt(cfg, k);
  }

  /** Sol's frequency generator starts at loop index 3, so it yields
      `get_frequency(i)` at loop index i. */
  lemma {:induction false} SolFrequencyAt(i: nat)
    requires FIRST_INDEX <= i
    ensures TakeFrequencies(FrequencyGenerator(FIRST_INDEX), i - FIRST_INDEX + 1).0[i - FIRST_INDEX] == Frequency(i)
  {
    var j := i - FIRST_INDEX;
    TakeFrequenciesValue(FIRST_INDEX, j + 1);
    assert FIRST_INDEX + j == i;
  }

  /** What the fretless sweep draws at step k, from its loop invariant. */
  lemma {:induction false} FretlessDrawAt(cfg: Config, k: nat)
    ensures Draw(Run(cfg, k), k).noteLong == LongNote(k)
    ensures Draw(Run(cfg, k), k).freq == Frequency(k + DEFAULT_START)
  {
    RunKeepsInvariant(cfg, k);
    DrawAt(cfg, Run(cfg, k), k);
  }

  // ---------------------------------------------------------------------------
  // Rows.

  /** `list.reverse()`. */
  function Reverse<T>(xs: seq<T>): (r: seq<T>)
    ensures |r| == |xs|
    ensures forall k :: 0 <= k < |xs| ==> r[k] == xs[|xs| - 1 - k]
  {
    if |xs| == 0 then [] else Reverse(xs[1..]) + [xs[0]]
  }

  lemma {:induction false} ReverseReverse<T>(xs: seq<T>)
    ensures Reverse(Reverse(xs)) == xs
  {
    var r := Reverse(Reverse(xs));
    forall k | 0 <= k < |xs| ensures r[k] == xs[k] {
      assert r[k] == Reverse(xs)[|xs| - 1 - k];
    }
  }

  /** The per-string lists of one instrument during the sweep: its tuning, the
      appender indices and the two matrices. */
  datatype Instrument = Instrument(tuning: seq<string>, open: seq<nat>,
                                   notes: seq<seq<string>>, freqs: seq<seq<Frequency>>)

  /** Every appender index names a row of both matrices. */
  predicate Fits(inst: Instrument)
  {
    && |inst.tuning| <= |inst.notes|
    && |inst.notes| == |inst.freqs|
    && forall j :: 0 <= j < |inst.open| ==> inst.open[j] < |inst.tuning|
  }

  /** The inner `for appender_index in ...[k..]` loop. */
  function AppendAll(notes: seq<seq<string>>, freqs: seq<seq<Frequency>>, idxs: seq<nat>, k: nat,
                     noteLong: string, freq: Frequency): (r: (seq<seq<string>>, seq<seq<Frequency>>))
    requires |notes| == |freqs| && k <= |idxs|
    requires forall j :: 0 <= j < |idxs| ==> idxs[j] < |notes|
    ensures |r.0| == |notes| && |r.1| == |freqs|
    ensures Distinct(idxs[k..]) ==>
              forall t :: 0 <= t < |notes| ==>
                && r.0[t] == (if t in idxs[k..] && |notes[t]| <= ROW_APPEND_LIMIT then notes[t] + [noteLong] else notes[t])
                && r.1[t] == (if t in idxs[k..] && |notes[t]| <= ROW_APPEND_LIMIT then freqs[t] + [freq] else freqs[t])
    decreases |idxs| - k
  {
    if k == |idxs| then (notes, freqs)
    else
      var t := idxs[k];
      var n := if |notes[t]| <= ROW_APPEND_LIMIT then notes[t := notes[t] + [noteLong]] else notes;
      var f := if |notes[t]| <= ROW_APPEND_LIMIT then freqs[t := freqs[t] + [freq]] else freqs;
      PeelString(idxs, k);
      AppendAll(n, f, idxs, k + 1, noteLong, freq)
  }

  /** One iteration's work for one instrument: open the strings tuned to the
      label, then append label and frequency to every open string's rows. */
  function InstrumentStep(inst: Instrument, noteLong: string, freq: Frequency): (r: Instrument)
    requires Fits(inst)
    ensures Fits(r) && r.tuning == inst.tuning
  {
    var active := inst.open + MatchingStrings(inst.tuning, noteLong, 0);
    assert forall j :: 0 <= j < |active| ==> active[j] in active;
    var m := AppendAll(inst.notes, inst.freqs, active, 0, noteLong, freq);
    Instrument(inst.tuning, active, m.0, m.1)
  }

  // ---------------------------------------------------------------------------
  // What the sweep fills in.

  /** The module-level matrices of one instrument: `fretboard_matrix…` and
      `fretboard_matrix_frequencies…`. */
  datatype Matrices = Matrices(notes: seq<seq<string>>, freqs: seq<seq<Frequency>>)

  /** Guitar and bass matrices: the module state `get_notes_index` mutates. */
  datatype SolState = SolState(guitar: Matrices, bass: Matrices)

  /** The state at import: six and four empty rows. */
  const SOL_INITIAL: SolState := SolState(Matrices([[], [], [], [], [], []], [[], [], [], [], [], []]),
                                          Matrices([[], [], [], []], [[], [], [], []]))

  /** How many appends a row of length `len0` still takes. */
  function Room(len0: nat): nat
  {
    if len0 <= ROW_APPEND_LIMIT then ROW_APPEND_LIMIT + 1 - len0 else 0
  }

  /** String s of the tuning is opened by a loop index below i. */
  predicate OpenedBy(tuning: seq<string>, s: nat, i: nat)
  {
    s < |tuning| && SolIndex(tuning[s]).Some? && FIRST_INDEX <= SolIndex(tuning[s]).value < i
  }

  /** Labels of loop indices i0, i0 + 1, ... (count of them). */
  function Labels(i0: nat, count: nat): seq<string>
  {
    seq(count, j requires 0 <= j < count => SolLongNote(i0 + j))
  }

  /** Frequencies of loop indices i0, i0 + 1, ... (count of them). */
  function Freqs(i0: nat, count: nat): seq<Frequency>
  {
    seq(count, j requires 0 <= j < count => Frequency(i0 + j))
  }

  /** Row s of both matrices once indices below i are processed, starting
      from the rows in m0: an opened string gets the labels and frequencies of
      the indices from its opening one on, as many as its row has room for. */
  function RowsAt(tuning: seq<string>, m0: Matrices, s: nat, i: nat): (seq<string>, seq<Frequency>)
    requires s < |m0.notes| && s < |m0.freqs|
  {
    if OpenedBy(tuning, s, i) then
      var i0 := SolIndex(tuning[s]).value;
      var c := Min(Room(|m0.notes[s]|), i - i0);
      (m0.notes[s] + Labels(i0, c), m0.freqs[s] + Freqs(i0, c))
    else (m0.notes[s], m0.freqs[s])
  }

  /** The loop invariant of one instrument before loop index i. */
  ghost predicate InstrumentAt(m0: Matrices, inst: Instrument, i: nat)
  {
    && Fits(inst)
    && |inst.notes| == |m0.notes| == |m0.freqs|
    && Distinct(inst.open)
    && (forall s: nat :: s in inst.open <==> OpenedBy(inst.tuning, s, i))
    && (forall s :: 0 <= s < |inst.notes| ==> (inst.notes[s], inst.freqs[s]) == RowsAt(inst.tuning, m0, s, i))
  }

  lemma {:induction false} InstrumentStart(tuning: seq<string>, m0: Matrices)
    requires |tuning| <= |m0.notes| == |m0.freqs|
    ensures InstrumentAt(m0, Instrument(tuning, [], m0.notes, m0.freqs), FIRST_INDEX)
  {
  }

  lemma {:induction false} LabelsGrow(i0: nat, c: nat)
    ensures Labels(i0, c) + [SolLongNote(i0 + c)] == Labels(i0, c + 1)
    ensures Freqs(i0, c) + [Frequency(i0 + c)] == Freqs(i0, c + 1)
  {
  }

  lemma {:induction false} OpenedByNext(tuning: seq<string>, s: nat, i: nat)
    requires i >= FIRST_INDEX
    ensures OpenedBy(tuning, s, i + 1) <==> OpenedBy(tuning, s, i) || (s < |tuning| && tuning[s] == SolLongNote(i))
  {
    if s < |tuning| {
      SolLongNoteMatches(tuning[s], i);
    }
  }

  /** After index i the appender list holds exactly the strings opened by `next`. */
  lemma {:induction false} OpenListStep(m0: Matrices, inst: Instrument, i: nat, next: nat)
    requires i >= FIRST_INDEX && InstrumentAt(m0, inst, i) && next == i + 1
    ensures forall s: nat :: s in inst.open + MatchingStrings(inst.tuning, SolLongNote(i), 0)
                         <==> OpenedBy(inst.tuning, s, next)
  {
    var active := inst.open + MatchingStrings(inst.tuning, SolLongNote(i), 0);
    forall s: nat ensures s in active <==> OpenedBy(inst.tuning, s, next) {
      OpenedByNext(inst.tuning, s, i);
      assert s in inst.open <==> OpenedBy(inst.tuning, s, i);
    }
  }

  /** Strings opened at index i were not open before it. */
  lemma {:induction false} NewlyOpenFresh(m0: Matrices, inst: Instrument, i: nat)
    requires i >= FIRST_INDEX && InstrumentAt(m0, inst, i)
    ensures forall s :: s in MatchingStrings(inst.tuning, SolLongNote(i), 0) ==> s !in inst.open
  {
    forall s: nat | s in MatchingStrings(inst.tuning, SolLongNote(i), 0) ensures s !in inst.open {
      SolLongNoteMatches(inst.tuning[s], i);
      assert !OpenedBy(inst.tuning, s, i);
    }
  }

  /** Loop index i opens exactly the strings tuned to its label. */
  lemma {:induction false} InstrumentOpenStep(m0: Matrices, inst: Instrument, i: nat, next: nat)
    requires i >= FIRST_INDEX && InstrumentAt(m0, inst, i) && next == i + 1
    ensures var r := InstrumentStep(inst, SolLongNote(i), Frequency(i));
            && Distinct(r.open)
            && (forall s: nat :: s in r.open <==> OpenedBy(inst.tuning, s, next))
  {
    var newlyOpen := MatchingStrings(inst.tuning, SolLongNote(i), 0);
    assert InstrumentStep(inst, SolLongNote(i), Frequency(i)).open == inst.open + newlyOpen;
    OpenListStep(m0, inst, i, next);
    NewlyOpenFresh(m0, inst, i);
    DistinctConcat(inst.open, newlyOpen);
  }

  /** How one row moves from index i to `next` = i + 1. */
  lemma {:induction false} RowStep(tuning: seq<string>, m0: Matrices, s: nat, i: nat, next: nat, isOpen: bool)
    requires i >= FIRST_INDEX && next == i + 1 && s < |m0.notes| && s < |m0.freqs|
    requires isOpen <==> OpenedBy(tuning, s, next)
    ensures var rows := RowsAt(tuning, m0, s, i);
            RowsAt(tuning, m0, s, next)
              == if isOpen && |rows.0| <= ROW_APPEND_LIMIT then (rows.0 + [SolLongNote(i)], rows.1 + [Frequency(i)])
                 else rows
  {
    OpenedByNext(tuning, s, i);
    var len0 := |m0.notes[s]|;
    if OpenedBy(tuning, s, i) {
      var i0 := SolIndex(tuning[s]).value;
      var c := Min(Room(len0), i - i0);
      var rows := RowsAt(tuning, m0, s, i);
      assert |rows.0| == len0 + c;
      if len0 + c <= ROW_APPEND_LIMIT {
        assert c == i - i0 && Min(Room(len0), i + 1 - i0) == c + 1;
        LabelsGrow(i0, c);
        assert i0 + c == i;
        assert rows.0 + [SolLongNote(i)] == m0.notes[s] + (Labels(i0, c) + [SolLongNote(i0 + c)]);
        assert rows.1 + [Frequency(i)] == m0.freqs[s] + (Freqs(i0, c) + [Frequency(i0 + c)]);
      } else {
        assert Min(Room(len0), i + 1 - i0) == c;
      }
    } else if isOpen {
      SolLongNoteMatches(tuning[s], i);
      assert SolIndex(tuning[s]).value == i;
      LabelsGrow(i, 0);
      assert Labels(i, 1) == [SolLongNote(i)] && Freqs(i, 1) == [Frequency(i)];
      if len0 <= ROW_APPEND_LIMIT {
        assert Min(Room(len0), i + 1 - i) == 1;
      } else {
        assert Min(Room(len0), i + 1 - i) == 0;
        assert m0.notes[s] + Labels(i, 0) == m0.notes[s];
        assert m0.freqs[s] + Freqs(i, 0) == m0.freqs[s];
      }
    }
  }

  /** One iteration keeps the invariant of an instrument. */
  lemma {:induction false} InstrumentStepKeeps(m0: Matrices, inst: Instrument, i: nat, next: nat)
    requires i >= FIRST_INDEX && InstrumentAt(m0, inst, i) && next == i + 1
    ensures InstrumentAt(m0, InstrumentStep(inst, SolLongNote(i), Frequency(i)), next)
  {
    InstrumentOpenStep(m0, inst, i, next);
    var r := InstrumentStep(inst, SolLongNote(i), Frequency(i));
    var active := r.open;
    assert active[0..] == active;
    forall s | 0 <= s < |r.notes| ensures (r.notes[s], r.freqs[s]) == RowsAt(inst.tuning, m0, s, next) {
      RowStep(inst.tuning, m0, s, i, next, s in active);
    }
  }

  /** What the call leaves for one instrument: row r holds the sweep's rows of
      string |rows| - 1 - r, since the matrices are reversed at the end. */
  predicate SweptAndReversed(tuning: seq<string>, m0: Matrices, m: Matrices)
    requires |m0.notes| == |m0.freqs|
  {
    && |m.notes| == |m0.notes| && |m.freqs| == |m0.freqs|
    && forall s :: 0 <= s < |m0.notes| ==>
         (m.notes[|m0.notes| - 1 - s], m.freqs[|m0.notes| - 1 - s]) == RowsAt(tuning, m0, s, END_INDEX)
  }

  /** Reversing the swept rows of an instrument. */
  function Reversed(inst: Instrument): Matrices
  {
    Matrices(Reverse(inst.notes), Reverse(inst.freqs))
  }

  lemma {:induction false} ReversedRows(m0: Matrices, inst: Instrument)
    requires InstrumentAt(m0, inst, END_INDEX)
    ensures SweptAndReversed(inst.tuning, m0, Reversed(inst))
  {
    var m := Reversed(inst);
    var len := |m0.notes|;
    forall s | 0 <= s < len
      ensures (m.notes[len - 1 - s], m.freqs[len - 1 - s]) == RowsAt(inst.tuning, m0, s, END_INDEX)
    {
      assert m.notes[len - 1 - s] == inst.notes[s];
      assert m.freqs[len - 1 - s] == inst.freqs[s];
      assert (inst.notes[s], inst.freqs[s]) == RowsAt(inst.tuning, m0, s, END_INDEX);
    }
  }

  /** The octave counter after the update at loop index i is i div 12, and the
      names generator has moved one place on. */
  lemma {:induction false} SolCounterAt(i: nat, next: nat, scaleIndex: nat, afterPos: nat)
    requires i >= FIRST_INDEX && next == i + 1
    requires scaleIndex == (if i % 12 == 0 then i / 12 else (i - 1) / 12)
    requires afterPos == ((i + 9) % 12 + 1) % 12
    ensures scaleIndex == i / 12 == (next - 1) / 12
    ensures afterPos == (next + 9) % 12
  {
    if i % 12 != 0 {
      assert (i - 1) / 12 == i / 12;
    }
  }

  /** So the label drawn at loop index i is `SolLongNote(i)`, its frequency is
      `get_frequency(i)`, and both generators stay in step with i. */
  lemma {:induction false} SolDrawAt(i: nat, next: nat, scaleIndex: nat, after: NotesGenerator, fGen: FrequencyGenerator)
    requires i >= FIRST_INDEX && next == i + 1
    requires scaleIndex == (if i % 12 == 0 then i / 12 else (i - 1) / 12)
    requires after.pos == ((i + 9) % 12 + 1) % 12
    requires fGen.n == i
    ensures scaleIndex == (next - 1) / 12
    ensures NOTES[(i + 9) % 12] + NatToString(scaleIndex) == SolLongNote(i)
    ensures after.pos == (next + 9) % 12
    ensures NextFrequency(fGen).0 == Frequency(i) && NextFrequency(fGen).1.n == next
  {
    SolCounterAt(i, next, scaleIndex, after.pos);
  }

  /** `get_notes_index()` on the module state `st`, with the two tunings as
      parameters (the source reads the two constants above): sweep loop indices
      3..99, append to open strings' rows, then reverse all four matrices. */
  method GetNotesIndex(guitarTuning: seq<string>, bassTuning: seq<string>, st: SolState) returns (r: SolState)
    requires |guitarTuning| <= |st.guitar.notes| == |st.guitar.freqs|
    requires |bassTuning| <= |st.bass.notes| == |st.bass.freqs|
    ensures SweptAndReversed(guitarTuning, st.guitar, r.guitar)
    ensures SweptAndReversed(bassTuning, st.bass, r.bass)
  {
    var fGen := FrequencyGenerator(FIRST_INDEX);
    var nGen := NOTES_GENERATOR_START;
    var guitar := Instrument(guitarTuning, [], st.guitar.notes, st.guitar.freqs);
    var bass := Instrument(bassTuning, [], st.bass.notes, st.bass.freqs);
    InstrumentStart(guitarTuning, st.guitar);
    InstrumentStart(bassTuning, st.bass);
    var scaleIndex := 0;
    var i := FIRST_INDEX;
    while i < END_INDEX
      invariant FIRST_INDEX <= i <= END_INDEX
      invariant scaleIndex == (i - 1) / 12
      invariant fGen.n == i && nGen.pos == (i + 9) % 12
      invariant guitar.tuning == guitarTuning && InstrumentAt(st.guitar, guitar, i)
      invariant bass.tuning == bassTuning && InstrumentAt(st.bass, bass, i)
    {
      if i % 12 == 0 {
        scaleIndex := i / 12;
      }
      var f := NextFrequency(fGen);
      var frequency := f.0;
      var n := NextNote(nGen);
      var note := n.0;
      var next := i + 1;
      SolDrawAt(i, next, scaleIndex, n.1, fGen);
      fGen := f.1;
      nGen := n.1;
      var noteLong := note + NatToString(scaleIndex);
      assert noteLong == SolLongNote(i) && frequency == Frequency(i);
      InstrumentStepKeeps(st.guitar, guitar, i, next);
      guitar := InstrumentStep(guitar, noteLong, frequency);
      InstrumentStepKeeps(st.bass, bass, i, next);
      bass := InstrumentStep(bass, noteLong, frequency);
      i := next;
    }
    ReversedRows(st.guitar, guitar);
    ReversedRows(st.bass, bass);
    r := SolState(Reversed(guitar), Reversed(bass));
  }

  // ---------------------------------------------------------------------------
  // Properties of the rows.

  /** Starting from aligned rows, the notes row and the frequencies row of a
      string stay the same length, keep what they held, and never grow past 25
      (unless already longer). */
  lemma {:induction false} RowsAligned(tuning: seq<string>, m0: Matrices, s: nat, i: nat)
    requires s < |m0.notes| && s < |m0.freqs| && |m0.notes[s]| == |m0.freqs[s]|
    ensures var rows := RowsAt(tuning, m0, s, i);
            var len0 := |m0.notes[s]|;
            && |rows.0| == |rows.1|
            && |rows.0| <= (if len0 <= ROW_APPEND_LIMIT then ROW_APPEND_LIMIT + 1 else len0)
            && rows.0[..len0] == m0.notes[s] && rows.1[..len0] == m0.freqs[s]
  {
    var rows := RowsAt(tuning, m0, s, i);
    if OpenedBy(tuning, s, i) {
      var i0 := SolIndex(tuning[s]).value;
      AppendedPart(m0.notes[s], m0.freqs[s], i0, Min(Room(|m0.notes[s]|), i - i0));
    } else {
      assert rows.0[..|m0.notes[s]|] == m0.notes[s] && rows.1[..|m0.freqs[s]|] == m0.freqs[s];
    }
  }

  /** Each appended label is paired with the frequency of the same loop index,
      counting from the string's opening index. */
  lemma {:induction false} RowsPaired(tuning: seq<string>, m0: Matrices, s: nat, i: nat)
    requires s < |m0.notes| && s < |m0.freqs| && |m0.notes[s]| == |m0.freqs[s]|
    ensures var rows := RowsAt(tuning, m0, s, i);
            var len0 := |m0.notes[s]|;
            forall j :: len0 <= j < |rows.0| ==>
              && OpenedBy(tuning, s, i)
              && rows.0[j] == SolLongNote(SolIndex(tuning[s]).value + (j - len0))
              && rows.1[j] == Frequency(SolIndex(tuning[s]).value + (j - len0))
  {
    if OpenedBy(tuning, s, i) {
      var i0 := SolIndex(tuning[s]).value;
      AppendedPart(m0.notes[s], m0.freqs[s], i0, Min(Room(|m0.notes[s]|), i - i0));
    }
  }

  /** The first label appended to a string's row is its tuning entry. */
  lemma {:induction false} RowsStartAtEntry(tuning: seq<string>, m0: Matrices, s: nat, i: nat)
    requires s < |m0.notes| && s < |m0.freqs| && |m0.notes[s]| == |m0.freqs[s]|
    requires |RowsAt(tuning, m0, s, i).0| > |m0.notes[s]|
    ensures s < |tuning| && RowsAt(tuning, m0, s, i).0[|m0.notes[s]|] == tuning[s]
  {
    RowsPaired(tuning, m0, s, i);
    var i0 := SolIndex(tuning[s]).value;
    SolLongNoteMatches(tuning[s], i0);
    assert RowsAt(tuning, m0, s, i).0[|m0.notes[s]|] == SolLongNote(i0 + 0);
  }

  lemma {:induction false} AppendedPart(n0: seq<string>, f0: seq<Frequency>, i0: nat, c: nat)
    requires |n0| == |f0|
    ensures var a := n0 + Labels(i0, c);
            var b := f0 + Freqs(i0, c);
            && |a| == |b| == |n0| + c
            && a[..|n0|] == n0 && b[..|n0|] == f0
            && forall j :: |n0| <= j < |a| ==>
                 a[j] == SolLongNote(i0 + (j - |n0|)) && b[j] == Frequency(i0 + (j - |n0|))
  {
    var a := n0 + Labels(i0, c);
    var b := f0 + Freqs(i0, c);
    assert a[..|n0|] == n0 && b[..|n0|] == f0;
    forall j | |n0| <= j < |a|
      ensures a[j] == SolLongNote(i0 + (j - |n0|)) && b[j] == Frequency(i0 + (j - |n0|))
    {
      assert a[j] == Labels(i0, c)[j - |n0|];
      assert b[j] == Freqs(i0, c)[j - |n0|];
    }
  }

  /** A row already longer than 24 takes nothing more. */
  lemma {:induction false} FullRowUnchanged(tuning: seq<string>, m0: Matrices, s: nat, i: nat)
    requires s < |m0.notes| && s < |m0.freqs| && |m0.notes[s]| > ROW_APPEND_LIMIT
    ensures RowsAt(tuning, m0, s, i) == (m0.notes[s], m0.freqs[s])
  {
    if OpenedBy(tuning, s, i) {
      var i0 := SolIndex(tuning[s]).value;
      assert Labels(i0, 0) == [] && Freqs(i0, 0) == [];
      assert m0.notes[s] + [] == m0.notes[s] && m0.freqs[s] + [] == m0.freqs[s];
    }
  }

  /** Since the matrices are module state, calling `get_notes_index` again once
      every row is full only reverses the matrices back. */
  lemma {:induction false} FullCallOnlyReverses(tuning: seq<string>, m0: Matrices, m: Matrices)
    requires |m0.notes| == |m0.freqs|
    requires forall s :: 0 <= s < |m0.notes| ==> |m0.notes[s]| > ROW_APPEND_LIMIT
    requires SweptAndReversed(tuning, m0, m)
    ensures m == Matrices(Reverse(m0.notes), Reverse(m0.freqs))
  {
    var len := |m0.notes|;
    forall k | 0 <= k < len ensures m.notes[k] == m0.notes[len - 1 - k] && m.freqs[k] == m0.freqs[len - 1 - k] {
      var s := len - 1 - k;
      FullRowUnchanged(tuning, m0, s, END_INDEX);
      assert len - 1 - s == k;
    }
  }

  /** The opening loop index of each standard guitar string: E2 at 31, A2 at 24
      (the label turns over at A), D3 at 41, G3 at 46, B3 at 38, E4 at 55. */
  lemma {:induction false} GuitarOpenings()
    ensures STANDARD_GUITAR[0] == SolLongNote(31) && STANDARD_GUITAR[1] == SolLongNote(24)
    ensures STANDARD_GUITAR[2] == SolLongNote(41) && STANDARD_GUITAR[3] == SolLongNote(46)
    ensures STANDARD_GUITAR[4] == SolLongNote(38) && STANDARD_GUITAR[5] == SolLongNote(55)
  {
    assert SolLongNote(31) == "E2" by { assert NatToString(2) == "2"; }
    assert SolLongNote(24) == "A2" by { assert NatToString(2) == "2"; }
    assert SolLongNote(41) == "D3" by { assert NatToString(3) == "3"; }
    assert SolLongNote(46) == "G3" by { assert NatToString(3) == "3"; }
    assert SolLongNote(38) == "B3" by { assert NatToString(3) == "3"; }
    assert SolLongNote(55) == "E4" by { assert NatToString(4) == "4"; }
  }

  /** A string tuned to the label of loop index i0 opens there. */
  lemma {:induction false} OpensAtIndex(tuning: seq<string>, s: nat, i0: nat)
    requires s < |tuning| && tuning[s] == SolLongNote(i0)
    ensures SolIndex(tuning[s]) == Some(i0)
  {
    SolLongNoteMatches(tuning[s], i0);
  }

  /** A string opening at loop index i0 in 3..75 fills an empty row completely. */
  lemma {:induction false} EmptyRowFills(tuning: seq<string>, m0: Matrices, s: nat, i0: nat)
    requires s < |m0.notes| && s < |m0.freqs| && m0.notes[s] == [] && m0.freqs[s] == []
    requires s < |tuning| && SolIndex(tuning[s]) == Some(i0) && FIRST_INDEX <= i0 && i0 + 25 <= END_INDEX
    ensures RowsAt(tuning, m0, s, END_INDEX) == (Labels(i0, 25), Freqs(i0, 25))
  {
    assert [] + Labels(i0, 25) == Labels(i0, 25);
    assert [] + Freqs(i0, 25) == Freqs(i0, 25);
  }

  /** The first call from the import state: the last guitar row is the reversed
      low E string, 25 labels from "E2"; the row before is the A string, whose
      first label "A2" carries `get_frequency(24)`, exactly 55 Hz. */
  lemma {:induction false} FirstCallGuitar(m: Matrices)
    requires SweptAndReversed(STANDARD_GUITAR, SOL_INITIAL.guitar, m)
    ensures m.notes[5] == Labels(31, 25) && m.freqs[5] == Freqs(31, 25)
    ensures m.notes[4] == Labels(24, 25) && m.freqs[4] == Freqs(24, 25)
    ensures m.notes[4][0] == "A2" && m.freqs[4][0] == Frequency(24) && ExactFrequencyText(24) == Some("55.00")
  {
    var m0 := SOL_INITIAL.guitar;
    GuitarOpenings();
    OpensAtIndex(STANDARD_GUITAR, 0, 31);
    OpensAtIndex(STANDARD_GUITAR, 1, 24);
    EmptyRowFills(STANDARD_GUITAR, m0, 0, 31);
    EmptyRowFills(STANDARD_GUITAR, m0, 1, 24);
    assert m.notes[5] == RowsAt(STANDARD_GUITAR, m0, 0, END_INDEX).0;
    assert m.notes[4] == RowsAt(STANDARD_GUITAR, m0, 1, END_INDEX).0;
    assert Labels(24, 25)[0] == SolLongNote(24);
    SolOctaveAtA();
  }
}
