/** `Fretless.create_fretboard` with its helpers `_update_dictionary` (see
    PyDict) and `_get_color` (fretless/fretless.py). */
module Fretless {
  import opened Wrappers
  import opened Decimal
  import opened Pitch
  import opened PyDict
  import opened PyDictSort

  const NUMBER_OF_FRETS: nat := 24

  function Min(a: int, b: int): int
  {
    if a < b then a else b
  }

  // ---------------------------------------------------------------------------
  // Colours.

  /** The instance's `colored_notes`: keys are either a long note or a bare name. */
  const COLORED_NOTES: map<string, string> := map[
    "B" := "red", "A" := "white", "A#" := "white",
    "E2" := "yellow", "F#2" := "yellow", "G#2" := "yellow", "C#3" := "magenta",
    "D3" := "yellow", "E3" := "yellow",
    "F#3" := "blue", "G#3" := "blue", "C#4" := "magenta", "D4" := "blue", "E4" := "blue",
    "F#4" := "green", "G#4" := "green", "C#5" := "magenta", "D5" := "green", "E5" := "green",
    "F#5" := "green", "G#5" := "green", "C#6" := "magenta", "D6" := "green", "E6" := "green"
  ]

  /** Python's `s[:-1]`. */
  function DropLast(s: string): (r: string)
    ensures |s| > 0 ==> s == r + [s[|s| - 1]]
    ensures |s| == 0 ==> r == s
  {
    if |s| == 0 then s else s[..|s| - 1]
  }

  /** `_get_color`: the colour of the long note, else of the long note without
      its last character, else the default `NOTE_COLOR_DEFAULT` (None). */
  function GetColor(colored: map<string, string>, noteLong: string): (r: Option<string>)
    ensures r.Some? <==> noteLong in colored || DropLast(noteLong) in colored
    ensures noteLong in colored ==> r == Some(colored[noteLong])
    ensures noteLong !in colored && r.Some? ==> r == Some(colored[DropLast(noteLong)])
  {
    if noteLong in colored then Some(colored[noteLong])
    else if DropLast(noteLong) in colored then Some(colored[DropLast(noteLong)])
    else None
  }

  /** Up to octave 9 the fallback key is the bare note name. */
  lemma {:induction false} ColorFallbackIsName(colored: map<string, string>, k: nat)
    requires k < 120
    ensures DropLast(LongNote(k)) == NOTES[k % 12]
    ensures GetColor(colored, LongNote(k))
         == if LongNote(k) in colored then Some(colored[LongNote(k)])
            else if NOTES[k % 12] in colored then Some(colored[NOTES[k % 12]])
            else None
  {
    NatToStringCanonical(k / 12);
    assert LongNote(k) == NOTES[k % 12] + NatToString(k / 12);
  }

  /** In octave 10 the fallback drops only the final "0": "E10" is looked up as
      "E1", the long note one octave up from the bottom of the sweep, not as "E". */
  lemma {:induction false} ColorFallbackOctaveTen(k: nat)
    requires 120 <= k < SWEEP_STEPS
    ensures DropLast(LongNote(k)) == LongNote(k - 108)
  {
    assert NatToString(10) == NatToString(1) + ['0'];
    assert (k - 108) / 12 == 1 && (k - 108) % 12 == k % 12;
    assert LongNote(k) == (NOTES[k % 12] + NatToString(1)) + ['0'];
  }

  /** With the shipped colour table "B3" is red through the bare name "B". */
  lemma ShippedColorByName()
    ensures GetColor(COLORED_NOTES, "B3") == Some("red")
  {
    assert "B3" !in COLORED_NOTES;
    assert DropLast("B3") == "B";
  }

  /** "E2" has its own entry in the shipped colour table. */
  lemma ShippedColorByLongNote()
    ensures GetColor(COLORED_NOTES, "E2") == Some("yellow")
  {
  }

  /** "B10" falls back to "B1", which the shipped colour table lacks: no colour. */
  lemma ShippedColorOctaveTen()
    ensures GetColor(COLORED_NOTES, "B10") == None
  {
    assert DropLast("B10") == "B1";
    assert "B10" !in COLORED_NOTES && "B1" !in COLORED_NOTES;
  }

  // ---------------------------------------------------------------------------
  // The sweep.

  datatype Config = Config(tuning: seq<string>, colored: map<string, string>, frets: nat)

  /** Loop state of `create_fretboard`: `indices_open_strings`,
      `index_chromatic_scale`, the `fretboard` dict and both generators. */
  datatype Sweep = Sweep(openStrings: seq<nat>, octave: nat, board: Items,
                         freqGen: FrequencyGenerator, notesGen: NotesGenerator)

  const INITIAL: Sweep := Sweep([], 0, [], FrequencyGenerator(DEFAULT_START), NOTES_GENERATOR_START)

  /** What one iteration draws: the long note, its frequency, and the new
      octave counter and generator states. */
  datatype Drawn = Drawn(noteLong: string, freq: Frequency, octave: nat,
                         freqGen: FrequencyGenerator, notesGen: NotesGenerator)

  function Draw(st: Sweep, indexNote: nat): Drawn
    requires ValidNotes(st.notesGen)
  {
    var octave := if indexNote % 12 == 0 then indexNote / 12 else st.octave;
    var f := NextFrequency(st.freqGen);
    var m := NextNote(st.notesGen);
    Drawn(m.0 + NatToString(octave), f.0, octave, f.1, m.1)
  }

  /** Indices j >= i whose tuning entry is the swept long note, ascending. */
  function MatchingStrings(tuning: seq<string>, noteLong: string, i: nat): (r: seq<nat>)
    requires i <= |tuning|
    ensures forall s :: s in r <==> i <= s < |tuning| && tuning[s] == noteLong
    ensures forall a, b :: 0 <= a < b < |r| ==> r[a] < r[b]
    decreases |tuning| - i
  {
    if i == |tuning| then []
    else if tuning[i] == noteLong then
      var rest := MatchingStrings(tuning, noteLong, i + 1);
      assert forall b :: 0 <= b < |rest| ==> rest[b] in rest;
      [i] + rest
    else MatchingStrings(tuning, noteLong, i + 1)
  }

  /** The inner dict `{'note_id': .., 'freq_hz': .., 'color': ..}`. */
  function Attributes(noteId: nat, freq: Frequency, color: Option<string>): PyValue
  {
    Mapping([(StrKey("note_id"), Atom(PyInt(noteId))),
             (StrKey("freq_hz"), Atom(PyFreq(freq))),
             (StrKey("color"), Atom(if color.Some? then PyStr(color.value) else PyNone))])
  }

  /** `note_id`: the size of the string's dict, 0 when it has none yet (only
      dicts are ever stored under a string index). */
  function NoteIdOf(prior: Option<PyValue>): nat
  {
    match prior
    case Some(Mapping(t)) => |t|
    case _ => 0
  }

  /** What one pass leaves under the string's key, given what was there. */
  function RecordValue(cfg: Config, prior: Option<PyValue>, noteLong: string, freq: Frequency): Option<PyValue>
  {
    var v := Mapping([(StrKey(noteLong), Attributes(NoteIdOf(prior), freq, GetColor(cfg.colored, noteLong)))]);
    if NoteIdOf(prior) <= cfg.frets then Some(MergedValue(prior, v)) else prior
  }

  /** One pass of the inner `for index_string in indices_open_strings` loop. */
  function Record(cfg: Config, board: Items, s: nat, noteLong: string, freq: Frequency): (r: Items)
    ensures UniqueKeys(board) ==> UniqueKeys(r)
    ensures KeySet(r) == KeySet(board) + {IntKey(s)}
    ensures forall k :: k != IntKey(s) ==> Lookup(r, k) == Lookup(board, k)
    ensures Lookup(r, IntKey(s)) == RecordValue(cfg, Lookup(board, IntKey(s)), noteLong, freq)
  {
    var prior := Lookup(board, IntKey(s));
    var noteId := NoteIdOf(prior);
    if !(noteId <= cfg.frets) then board
    else
      var update := [(IntKey(s), Mapping([(StrKey(noteLong), Attributes(noteId, freq, GetColor(cfg.colored, noteLong)))]))];
      UpdateDictionaryValue(board, update, 0);
      assert KeySet(update) == {IntKey(s)};
      UpdateDictionary(board, update)
  }

  predicate Distinct(xs: seq<nat>)
  {
    forall a, b :: 0 <= a < b < |xs| ==> xs[a] != xs[b]
  }

  /** Appending fresh distinct indices keeps a list of indices distinct. */
  lemma DistinctConcat(a: seq<nat>, b: seq<nat>)
    requires Distinct(a) && Distinct(b)
    requires forall s :: s in b ==> s !in a
    ensures Distinct(a + b)
  {
    var c := a + b;
    forall x, y | 0 <= x < y < |c| ensures c[x] != c[y] {
      if y >= |a| && x < |a| {
        assert c[y] == b[y - |a|] && c[y] in b;
        assert c[x] in a;
      } else if x >= |a| {
        assert c[x] == b[x - |a|] && c[y] == b[y - |a|];
      }
    }
  }

  function StringKeys(strings: seq<nat>): set<PyKey>
  {
    set s | s in strings :: IntKey(s)
  }

  /** Peeling the first index off `strings[i..]`. */
  lemma {:induction false} PeelString(strings: seq<nat>, i: nat)
    requires i < |strings|
    ensures strings[i..] == [strings[i]] + strings[i + 1..]
    ensures StringKeys(strings[i..]) == {IntKey(strings[i])} + StringKeys(strings[i + 1..])
    ensures Distinct(strings[i..]) ==> Distinct(strings[i + 1..]) && strings[i] !in strings[i + 1..]
  {
    var t := strings[i..];
    assert t == [strings[i]] + strings[i + 1..];
    assert strings[i + 1..] == t[1..];
    if Distinct(t) {
      forall a | 0 <= a < |t[1..]| ensures t[1..][a] != t[0] {
        assert t[1..][a] == t[a + 1];
      }
      forall a, b | 0 <= a < b < |t[1..]| ensures t[1..][a] != t[1..][b] {
        assert t[1..][a] == t[a + 1] && t[1..][b] == t[b + 1];
      }
    }
  }

  /** The whole inner loop over `indices_open_strings[i..]`. */
  function RecordAll(cfg: Config, board: Items, strings: seq<nat>, i: nat, noteLong: string, freq: Frequency): (r: Items)
    requires i <= |strings|
    ensures UniqueKeys(board) ==> UniqueKeys(r)
    ensures KeySet(r) == KeySet(board) + StringKeys(strings[i..])
    ensures forall k :: k !in StringKeys(strings[i..]) ==> Lookup(r, k) == Lookup(board, k)
    ensures Distinct(strings[i..]) ==>
              forall s :: s in strings[i..] ==> Lookup(r, IntKey(s)) == RecordValue(cfg, Lookup(board, IntKey(s)), noteLong, freq)
    decreases |strings| - i
  {
    if i == |strings| then board
    else
      var b := Record(cfg, board, strings[i], noteLong, freq);
      PeelString(strings, i);
      RecordAll(cfg, b, strings, i + 1, noteLong, freq)
  }

  /** One iteration of `for index_note in range(132)`. */
  function Step(cfg: Config, st: Sweep, indexNote: nat): (r: Sweep)
    requires ValidNotes(st.notesGen)
    ensures ValidNotes(r.notesGen)
    ensures |st.openStrings| <= |r.openStrings| && r.openStrings[..|st.openStrings|] == st.openStrings
  {
    var d := Draw(st, indexNote);
    var active := st.openStrings + MatchingStrings(cfg.tuning, d.noteLong, 0);
    Sweep(active, d.octave, RecordAll(cfg, st.board, active, 0, d.noteLong, d.freq), d.freqGen, d.notesGen)
  }

  /** The loop state after the first n iterations. */
  function Run(cfg: Config, n: nat): (r: Sweep)
    ensures ValidNotes(r.notesGen)
  {
    if n == 0 then INITIAL else Step(cfg, Run(cfg, n - 1), n - 1)
  }

  // ---------------------------------------------------------------------------
  // What the sweep builds.

  /** The tuning entry x is a long note swept among the first n steps. */
  predicate OpensBefore(x: string, n: nat)
  {
    ParseLongNote(x).Some? && ParseLongNote(x).value < n
  }

  /** The item the sweep records at step k as fret `fret` of a string. */
  function Entry(colored: map<string, string>, k: nat, fret: nat): (PyKey, PyValue)
  {
    (StrKey(LongNote(k)), Attributes(fret, Frequency(k + DEFAULT_START), GetColor(colored, LongNote(k))))
  }

  /** A string opened at step o, with `count` frets: fret j is the long note of
      step o + j with note_id j and the frequency of that same step. */
  function FretTable(colored: map<string, string>, o: nat, count: nat): Items
  {
    seq(count, j requires 0 <= j < count => Entry(colored, o + j, j))
  }

  /** The dict of a string opened at step o, after n steps: none while n <= o,
      then min(frets + 1, n - o) frets. */
  function TableAfter(cfg: Config, o: nat, n: nat): Option<PyValue>
  {
    if o < n then Some(Mapping(FretTable(cfg.colored, o, Min(cfg.frets + 1, n - o)))) else None
  }

  /** The dict of string s after n steps: none unless its tuning entry is a long
      note, else as `TableAfter` from the step that sweeps that note. */
  function Expected(cfg: Config, s: nat, n: nat): Option<PyValue>
  {
    if s < |cfg.tuning| && ParseLongNote(cfg.tuning[s]).Some? then
      TableAfter(cfg, ParseLongNote(cfg.tuning[s]).value, n)
    else None
  }

  predicate GeneratorsAt(n: nat, st: Sweep)
  {
    && st.freqGen.n == DEFAULT_START + n
    && st.notesGen.pos == n % 12
    && (if n == 0 then st.octave == 0 else st.octave == (n - 1) / 12)
  }

  /** `indices_open_strings` after n steps: each string whose note has been swept, once. */
  ghost predicate OpenAt(cfg: Config, n: nat, st: Sweep)
  {
    && Distinct(st.openStrings)
    && (forall s: nat :: s in st.openStrings <==> Opened(cfg, s, n))
  }

  ghost predicate BoardAt(cfg: Config, n: nat, st: Sweep)
  {
    && UniqueKeys(st.board)
    && KeySet(st.board) == StringKeys(st.openStrings)
    && (forall s: nat :: Lookup(st.board, IntKey(s)) == Expected(cfg, s, n))
  }

  /** The loop invariant of `create_fretboard` after n iterations. */
  ghost predicate Invariant(cfg: Config, n: nat, st: Sweep)
  {
    GeneratorsAt(n, st) && OpenAt(cfg, n, st) && BoardAt(cfg, n, st)
  }

  /** Iteration n draws the long note of step n and `get_frequency(n + 3)`. */
  lemma {:induction false} DrawAt(cfg: Config, st: Sweep, n: nat)
    requires GeneratorsAt(n, st) && ValidNotes(st.notesGen)
    ensures Draw(st, n).noteLong == LongNote(n)
    ensures Draw(st, n).freq == Frequency(n + DEFAULT_START)
    ensures GeneratorsAt(n + 1, Step(cfg, st, n))
  {
    if n % 12 != 0 {
      assert (n - 1) / 12 == n / 12;
    }
    assert (n % 12 + 1) % 12 == (n + 1) % 12;
  }

  lemma {:induction false} NotInKeySet(d: Items, k: PyKey)
    requires forall i :: 0 <= i < |d| ==> d[i].0 != k
    ensures k !in KeySet(d)
  {
    if |d| > 0 {
      assert forall i :: 0 <= i < |d[1..]| ==> d[1..][i] == d[i + 1];
      NotInKeySet(d[1..], k);
    }
  }

  lemma FretTableAt(colored: map<string, string>, o: nat, count: nat, i: nat)
    requires i < count
    ensures |FretTable(colored, o, count)| == count
    ensures FretTable(colored, o, count)[i] == Entry(colored, o + i, i)
  {
  }

  lemma FretTableKey(colored: map<string, string>, o: nat, count: nat, i: nat)
    requires i < count
    ensures FretTable(colored, o, count)[i].0 == StrKey(LongNote(o + i))
  {
    FretTableAt(colored, o, count, i);
  }

  lemma FretTableKeyBefore(colored: map<string, string>, o: nat, count: nat, i: nat, n: nat)
    requires i < count && n == o + count
    ensures FretTable(colored, o, count)[i].0 != StrKey(LongNote(n))
  {
    var a := o + i;
    LongNoteInjective(a, n);
    assert LongNote(a) != LongNote(n);
    FretTableKey(colored, o, count, i);
  }

  /** The long note of the step after the last fret is not yet a key of the string's dict. */
  lemma {:induction false} FretTableFreshKey(colored: map<string, string>, o: nat, count: nat, n: nat)
    requires n == o + count
    ensures StrKey(LongNote(n)) !in KeySet(FretTable(colored, o, count))
  {
    var t := FretTable(colored, o, count);
    var k := StrKey(LongNote(n));
    forall i | 0 <= i < |t| ensures t[i].0 != k {
      FretTableKeyBefore(colored, o, count, i, n);
    }
    NotInKeySet(t, k);
  }

  /** One more fret is the old table with step n's entry appended. */
  lemma FretTableSnoc(colored: map<string, string>, o: nat, count: nat, n: nat)
    requires n == o + count
    ensures FretTable(colored, o, count + 1) == FretTable(colored, o, count) + [Entry(colored, n, count)]
  {
    var t := FretTable(colored, o, count);
    var t' := FretTable(colored, o, count + 1);
    var u := t + [Entry(colored, n, count)];
    assert |t| == count && |t'| == count + 1;
    forall i | 0 <= i < count + 1 ensures u[i] == t'[i] {
      FretTableAt(colored, o, count + 1, i);
      if i < count {
        FretTableAt(colored, o, count, i);
        assert u[i] == t[i];
      } else {
        var k := o + i;
        assert k == n;
      }
    }
  }

  /** So recording step n appends: the dict grows by exactly one fret. */
  lemma {:induction false} FretTableGrows(colored: map<string, string>, o: nat, count: nat, n: nat)
    requires n == o + count
    ensures UpdateDictionary(FretTable(colored, o, count), [Entry(colored, n, count)])
         == FretTable(colored, o, count + 1)
  {
    var t := FretTable(colored, o, count);
    var e := Entry(colored, n, count);
    FretTableFreshKey(colored, o, count, n);
    UpdateWithNewKey(t, e.0, e.1);
    FretTableSnoc(colored, o, count, n);
  }

  /** The opening step records fret 0. */
  lemma TableAfterOpen(cfg: Config, n: nat)
    ensures RecordValue(cfg, None, LongNote(n), Frequency(n + DEFAULT_START)) == TableAfter(cfg, n, n + 1)
  {
    var e := Entry(cfg.colored, n, 0);
    assert [e] == FretTable(cfg.colored, n, 1);
    assert Min(cfg.frets + 1, 1) == 1;
    assert MergedValue(None, Mapping([e])) == Mapping([e]);
  }

  /** Below the cap a string's dict of `count` frets gains fret `count`. */
  lemma RecordValueAppends(cfg: Config, t: Items, count: nat, noteLong: string, freq: Frequency)
    requires |t| == count <= cfg.frets
    ensures RecordValue(cfg, Some(Mapping(t)), noteLong, freq)
         == Some(Mapping(UpdateDictionary(t, [(StrKey(noteLong), Attributes(count, freq, GetColor(cfg.colored, noteLong)))])))
  {
  }

  /** Below the cap the string's dict before and after step n. */
  lemma TableAfterBelowCap(cfg: Config, o: nat, n: nat, c: nat)
    requires o < n && c == n - o <= cfg.frets
    ensures TableAfter(cfg, o, n) == Some(Mapping(FretTable(cfg.colored, o, c)))
    ensures TableAfter(cfg, o, n + 1) == Some(Mapping(FretTable(cfg.colored, o, c + 1)))
  {
    assert Min(cfg.frets + 1, n - o) == c && Min(cfg.frets + 1, n + 1 - o) == c + 1;
  }

  /** Below the fret cap the step appends fret n - o. */
  lemma TableAfterGrow(cfg: Config, o: nat, n: nat)
    requires o < n && n - o <= cfg.frets
    ensures RecordValue(cfg, TableAfter(cfg, o, n), LongNote(n), Frequency(n + DEFAULT_START)) == TableAfter(cfg, o, n + 1)
  {
    var c := n - o;
    TableAfterBelowCap(cfg, o, n, c);
    var t := FretTable(cfg.colored, o, c);
    RecordValueAppends(cfg, t, c, LongNote(n), Frequency(n + DEFAULT_START));
    FretTableGrows(cfg.colored, o, c, n);
    assert Entry(cfg.colored, n, c)
        == (StrKey(LongNote(n)), Attributes(c, Frequency(n + DEFAULT_START), GetColor(cfg.colored, LongNote(n))));
  }

  /** At the cap the dict is left as it is. */
  lemma TableAfterFull(cfg: Config, o: nat, n: nat)
    requires o < n && n - o > cfg.frets
    ensures RecordValue(cfg, TableAfter(cfg, o, n), LongNote(n), Frequency(n + DEFAULT_START)) == TableAfter(cfg, o, n + 1)
  {
    assert Min(cfg.frets + 1, n - o) == cfg.frets + 1 && Min(cfg.frets + 1, n + 1 - o) == cfg.frets + 1;
    var prior := TableAfter(cfg, o, n);
    assert prior == Some(Mapping(FretTable(cfg.colored, o, cfg.frets + 1)));
    assert NoteIdOf(prior) == cfg.frets + 1;
  }

  /** Recording step n for a string opened at step o <= n turns its n-step dict
      into its (n+1)-step dict. */
  lemma {:induction false} TableAfterStep(cfg: Config, o: nat, n: nat)
    requires o <= n
    ensures RecordValue(cfg, TableAfter(cfg, o, n), LongNote(n), Frequency(n + DEFAULT_START)) == TableAfter(cfg, o, n + 1)
  {
    if o == n {
      assert TableAfter(cfg, o, n) == None;
      TableAfterOpen(cfg, n);
    } else if n - o <= cfg.frets {
      TableAfterGrow(cfg, o, n);
    } else {
      TableAfterFull(cfg, o, n);
    }
  }

  lemma {:induction false} StringKeysConcat(a: seq<nat>, b: seq<nat>)
    ensures StringKeys(a + b) == StringKeys(a) + StringKeys(b)
  {
  }

  /** String s is open after n steps. */
  predicate Opened(cfg: Config, s: nat, n: nat)
  {
    s < |cfg.tuning| && OpensBefore(cfg.tuning[s], n)
  }

  lemma {:induction false} OpenedNext(cfg: Config, s: nat, n: nat)
    ensures Opened(cfg, s, n + 1) <==> Opened(cfg, s, n) || (s < |cfg.tuning| && cfg.tuning[s] == LongNote(n))
  {
    if s < |cfg.tuning| {
      LongNoteMatches(cfg.tuning[s], n);
    }
  }

  /** The strings open after step n: those open before it and those it matches. */
  lemma {:induction false} OpenListStep(cfg: Config, st: Sweep, n: nat)
    requires OpenAt(cfg, n, st)
    ensures forall s: nat :: s in st.openStrings + MatchingStrings(cfg.tuning, LongNote(n), 0)
                         <==> Opened(cfg, s, n + 1)
  {
    var active := st.openStrings + MatchingStrings(cfg.tuning, LongNote(n), 0);
    forall s: nat ensures s in active <==> Opened(cfg, s, n + 1) {
      OpenedNext(cfg, s, n);
      assert s in st.openStrings <==> Opened(cfg, s, n);
    }
  }

  /** Strings that step n matches were not open before it. */
  lemma {:induction false} MatchedAreFresh(cfg: Config, st: Sweep, n: nat)
    requires OpenAt(cfg, n, st)
    ensures forall s :: s in MatchingStrings(cfg.tuning, LongNote(n), 0) ==> s !in st.openStrings
  {
    forall s: nat | s in MatchingStrings(cfg.tuning, LongNote(n), 0) ensures s !in st.openStrings {
      LongNoteMatches(cfg.tuning[s], n);
      assert !Opened(cfg, s, n);
    }
  }

  /** Step n opens exactly the strings whose entry is the long note of step n. */
  lemma {:induction false} OpenStep(cfg: Config, st: Sweep, n: nat)
    requires Invariant(cfg, n, st)
    ensures OpenAt(cfg, n + 1, Step(cfg, st, n))
  {
    DrawAt(cfg, st, n);
    var newlyOpen := MatchingStrings(cfg.tuning, LongNote(n), 0);
    assert Step(cfg, st, n).openStrings == st.openStrings + newlyOpen;
    OpenListStep(cfg, st, n);
    MatchedAreFresh(cfg, st, n);
    DistinctConcat(st.openStrings, newlyOpen);
  }

  /** Step n records the long note of step n on every open string. */
  lemma {:induction false} BoardStep(cfg: Config, st: Sweep, n: nat)
    requires Invariant(cfg, n, st)
    ensures BoardAt(cfg, n + 1, Step(cfg, st, n))
  {
    DrawAt(cfg, st, n);
    OpenStep(cfg, st, n);
    var r := Step(cfg, st, n);
    var active := r.openStrings;
    assert active[0..] == active;
    assert active == st.openStrings + MatchingStrings(cfg.tuning, LongNote(n), 0);
    StringKeysConcat(st.openStrings, MatchingStrings(cfg.tuning, LongNote(n), 0));
    forall s: nat ensures Lookup(r.board, IntKey(s)) == Expected(cfg, s, n + 1) {
      if s in active {
        TableAfterStep(cfg, ParseLongNote(cfg.tuning[s]).value, n);
      } else {
        assert IntKey(s) !in StringKeys(active);
      }
    }
  }

  lemma {:induction false} StepKeepsInvariant(cfg: Config, st: Sweep, n: nat)
    requires Invariant(cfg, n, st)
    ensures Invariant(cfg, n + 1, Step(cfg, st, n))
  {
    DrawAt(cfg, st, n);
    OpenStep(cfg, st, n);
    BoardStep(cfg, st, n);
  }

  lemma {:induction false} InitialInvariant(cfg: Config)
    ensures Invariant(cfg, 0, INITIAL)
  {
    assert KeySet([]) == {};
    assert StringKeys([]) == {};
    forall s: nat ensures Expected(cfg, s, 0) == None {
    }
  }
}
