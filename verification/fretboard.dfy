/** The result of `Fretless.create_fretboard`: the sweep run to completion and
    sorted by string index, behind the tuning lookup (fretless/fretless.py). */
module Fretboard {
  import opened Wrappers
  import opened Decimal
  import opened Pitch
  import opened PyDict
  import opened PyDictSort
  import opened Tunings
  import opened Fretless

  lemma {:induction false} RunUnfold(cfg: Config, m: nat)
    ensures Run(cfg, m + 1) == Step(cfg, Run(cfg, m), m)
  {
  }

  lemma {:induction false} RunStepKeepsInvariant(cfg: Config, m: nat)
    requires Invariant(cfg, m, Run(cfg, m))
    ensures Invariant(cfg, m + 1, Run(cfg, m + 1))
  {
    StepKeepsInvariant(cfg, Run(cfg, m), m);
    RunUnfold(cfg, m);
  }

  lemma {:induction false} RunStartKeepsInvariant(cfg: Config)
    ensures Invariant(cfg, 0, Run(cfg, 0))
  {
    InitialInvariant(cfg);
  }

  /** The invariant holds after every number of iterations. */
  lemma {:induction false} RunKeepsInvariant(cfg: Config, n: nat)
    ensures Invariant(cfg, n, Run(cfg, n))
  {
    if n == 0 {
      RunStartKeepsInvariant(cfg);
    } else {
      var m := n - 1;
      RunKeepsInvariant(cfg, m);
      assert Invariant(cfg, m, Run(cfg, m));
      RunStepKeepsInvariant(cfg, m);
      assert Invariant(cfg, m + 1, Run(cfg, m + 1));
    }
  }

  // ---------------------------------------------------------------------------
  // The finished fretboard.

  /** Every key of the finished board is a string index. */
  lemma {:induction false} BoardIntKeys(cfg: Config, st: Sweep)
    requires Invariant(cfg, SWEEP_STEPS, st)
    ensures IntKeys(st.board)
  {
    forall i | 0 <= i < |st.board| ensures st.board[i].0.IntKey? {
      KeySetHas(st.board, i);
    }
  }

  /** After the sweep the board's keys are the indices of the opened strings. */
  lemma {:induction false} BoardKeys(cfg: Config, st: Sweep)
    requires Invariant(cfg, SWEEP_STEPS, st)
    ensures forall k :: k in KeySet(st.board) <==> k.IntKey? && k.i >= 0 && Opened(cfg, k.i, SWEEP_STEPS)
  {
    forall k ensures k in KeySet(st.board) <==> k.IntKey? && k.i >= 0 && Opened(cfg, k.i, SWEEP_STEPS) {
      if k in KeySet(st.board) {
        assert k in StringKeys(st.openStrings);
        var s :| s in st.openStrings && k == IntKey(s);
      }
    }
  }

  /** `dict(sorted(fretboard.items()))` after the 132 steps: one entry per string
      whose tuning entry is a long note from "C0" to "B10", in ascending string
      order, holding the frets from its open note up to `number_of_frets`. */
  function BuildFretboard(cfg: Config): (r: Items)
    ensures IntKeys(r) && Ascending(r) && UniqueKeys(r)
    ensures forall k :: k in KeySet(r) <==> k.IntKey? && k.i >= 0 && Opened(cfg, k.i, SWEEP_STEPS)
    ensures forall s: nat :: Lookup(r, IntKey(s)) == Expected(cfg, s, SWEEP_STEPS)
  {
    var st := Run(cfg, SWEEP_STEPS);
    RunKeepsInvariant(cfg, SWEEP_STEPS);
    BoardIntKeys(cfg, st);
    BoardKeys(cfg, st);
    SortByIntKey(st.board)
  }

  /** `create_fretboard`: look the tuning up (KeyError for an unknown id), then
      build the board from its notation. */
  function CreateFretboard(t: Tunings, tuningId: string, colored: map<string, string>, frets: nat): (r: Result<Items>)
    ensures r.Failure? <==> forall i :: 0 <= i < |t.content| ==> t.content[i].0 != tuningId
    ensures r.Failure? ==> r.error == KeyError
    ensures r.Success? ==> exists i :: 0 <= i < |t.content| && t.content[i].0 == tuningId
                             && r.value == BuildFretboard(Config(t.content[i].1.notation, colored, frets))
  {
    match GetNotation(t, tuningId)
    case Failure(e) => Failure(e)
    case Success(notation) =>
      match GetDescription(t, tuningId)
      case Failure(e) => Failure(e)
      case Success(_) => Success(BuildFretboard(Config(notation, colored, frets)))
  }

  // ---------------------------------------------------------------------------
  // Properties of the sweep and of the result.

  /** One step only appends to `indices_open_strings`. */
  lemma {:induction false} OpenStringsStep(cfg: Config, k: nat, n: nat)
    requires n == k + 1
    ensures |Run(cfg, k).openStrings| <= |Run(cfg, n).openStrings|
    ensures Run(cfg, n).openStrings[..|Run(cfg, k).openStrings|] == Run(cfg, k).openStrings
  {
    RunUnfold(cfg, k);
  }

  /** `indices_open_strings` only grows: what is open after m steps stays open,
      in the same order, after any later step. */
  lemma {:induction false} OpenStringsGrow(cfg: Config, m: nat, n: nat)
    requires m <= n
    ensures |Run(cfg, m).openStrings| <= |Run(cfg, n).openStrings|
    ensures Run(cfg, n).openStrings[..|Run(cfg, m).openStrings|] == Run(cfg, m).openStrings
  {
    if m == n {
    } else {
      var k := n - 1;
      OpenStringsGrow(cfg, m, k);
      var a := Run(cfg, m).openStrings;
      var b := Run(cfg, k).openStrings;
      assert |a| <= |b| && b[..|a|] == a;
      OpenStringsStep(cfg, k, n);
      var c := Run(cfg, n).openStrings;
      assert |b| <= |c| && c[..|b|] == b;
      PrefixOfPrefix(a, b, c);
    }
  }

  lemma {:induction false} PrefixOfPrefix(a: seq<nat>, b: seq<nat>, c: seq<nat>)
    requires |a| <= |b| <= |c| && c[..|b|] == b && b[..|a|] == a
    ensures c[..|a|] == a
  {
    assert c[..|a|] == c[..|b|][..|a|];
  }

  /** Strings tuned to the same long note open at the same step and carry
      identical frets. */
  lemma {:induction false} AlikeStringsAlikeFrets(cfg: Config, s: nat, t: nat)
    requires s < |cfg.tuning| && t < |cfg.tuning| && cfg.tuning[s] == cfg.tuning[t]
    ensures Lookup(BuildFretboard(cfg), IntKey(s)) == Lookup(BuildFretboard(cfg), IntKey(t))
  {
    var r := BuildFretboard(cfg);
    assert Lookup(r, IntKey(s)) == Expected(cfg, s, SWEEP_STEPS);
    assert Lookup(r, IntKey(t)) == Expected(cfg, t, SWEEP_STEPS);
  }

  /** A string opened at step o < 132 ends the sweep with min(frets + 1, 132 - o) frets. */
  lemma {:induction false} ExpectedAtEnd(cfg: Config, s: nat, o: nat)
    requires s < |cfg.tuning| && ParseLongNote(cfg.tuning[s]) == Some(o) && o < SWEEP_STEPS
    ensures Expected(cfg, s, SWEEP_STEPS) == Some(Mapping(FretTable(cfg.colored, o, Min(cfg.frets + 1, SWEEP_STEPS - o))))
  {
  }

  /** Fret j of a table opened at step o is the long note of step o + j. */
  lemma {:induction false} FretTableEntries(colored: map<string, string>, o: nat, c: nat)
    ensures |FretTable(colored, o, c)| == c
    ensures forall j :: 0 <= j < c ==>
              FretTable(colored, o, c)[j] == (StrKey(LongNote(o + j)),
                Attributes(j, Frequency(o + j + DEFAULT_START), GetColor(colored, LongNote(o + j))))
  {
    var t := FretTable(colored, o, c);
    forall j | 0 <= j < c
      ensures t[j] == (StrKey(LongNote(o + j)),
                       Attributes(j, Frequency(o + j + DEFAULT_START), GetColor(colored, LongNote(o + j))))
    {
      assert t[j] == Entry(colored, o + j, j);
    }
  }

  /** Each string's frets in order: fret j is the open note raised j semitones,
      with note_id j, the frequency of that step and its colour; there are
      `number_of_frets` + 1 of them unless the sweep ends first at "B10". */
  lemma {:induction false} StringFrets(cfg: Config, s: nat, o: nat)
    requires s < |cfg.tuning| && ParseLongNote(cfg.tuning[s]) == Some(o) && o < SWEEP_STEPS
    ensures Lookup(BuildFretboard(cfg), IntKey(s)).Some?
    ensures var v := Lookup(BuildFretboard(cfg), IntKey(s)).value;
            && v.Mapping?
            && |v.items| == Min(cfg.frets + 1, SWEEP_STEPS - o)
            && v.items[0].0 == StrKey(cfg.tuning[s])
            && forall j :: 0 <= j < |v.items| ==>
                 v.items[j] == (StrKey(LongNote(o + j)),
                                Attributes(j, Frequency(o + j + DEFAULT_START), GetColor(cfg.colored, LongNote(o + j))))
  {
    var c := Min(cfg.frets + 1, SWEEP_STEPS - o);
    var t := FretTable(cfg.colored, o, c);
    ExpectedAtEnd(cfg, s, o);
    assert Lookup(BuildFretboard(cfg), IntKey(s)) == Expected(cfg, s, SWEEP_STEPS);
    assert Lookup(BuildFretboard(cfg), IntKey(s)) == Some(Mapping(t));
    FretTableEntries(cfg.colored, o, c);
    LongNoteOfParse(cfg.tuning[s], o);
    assert t[0].0 == StrKey(LongNote(o + 0));
  }

  /** "C11" reads as step 132, one past the last swept step; "Bb3" and "E" are not long notes. */
  lemma ParseC11()
    ensures ParseLongNote("C11") == Some(SWEEP_STEPS)
  {
    var x := "C11";
    assert x[..1] == "C" && x[1..] == "11";
    assert NatToString(11) == "11";
    ParseNatToString(11);
  }

  lemma ParseFlat()
    ensures ParseLongNote("Bb3") == None
  {
    var x := "Bb3";
    assert x[..1] == "B" && x[1..] == "b3";
  }

  lemma ParseBareName()
    ensures ParseLongNote("E") == None
  {
    var x := "E";
    assert x[1..] == "";
  }

  /** A tuning entry that is not one of the swept long notes never opens: "C11"
      lies past the sweep, "Bb3" is spelled with a flat and "E" has no octave. */
  lemma {:induction false} UnsweptEntries(cfg: Config, s: nat)
    requires s < |cfg.tuning| && cfg.tuning[s] in ["C11", "Bb3", "E"]
    ensures IntKey(s) !in KeySet(BuildFretboard(cfg))
  {
    ParseC11();
    ParseFlat();
    ParseBareName();
    assert !OpensBefore(cfg.tuning[s], SWEEP_STEPS);
    assert !Opened(cfg, s, SWEEP_STEPS);
  }

  /** "E10" is the long note of step 124. */
  lemma ParseE10()
    ensures ParseLongNote("E10") == Some(124)
  {
    assert LongNote(124) == "E10" by {
      assert NatToString(10) == NatToString(1) + [DigitChar(0)];
    }
    LongNoteMatches("E10", 124);
  }

  /** A string tuned to "E10" opens 8 steps before the end and keeps only 8
      frets, whatever `number_of_frets` allows beyond that; its last is "B10". */
  lemma {:induction false} TopStringTruncated(cfg: Config, s: nat)
    requires s < |cfg.tuning| && cfg.tuning[s] == "E10" && cfg.frets >= 7
    ensures var v := Lookup(BuildFretboard(cfg), IntKey(s));
            && v.Some? && v.value.Mapping? && |v.value.items| == 8
            && v.value.items[7].0 == StrKey("B10")
  {
    ParseE10();
    StringFrets(cfg, s, 124);
    assert Min(cfg.frets + 1, SWEEP_STEPS - 124) == 8;
    var last := 124 + 7;
    assert last == SWEEP_STEPS - 1;
    SweepEnds();
  }

  /** Standard guitar tuning, low string first: `E-A-D-G-B-E` in both the fretless
      tunings and sol's `GUITAR_TUNINGS`. */
  const STANDARD_GUITAR: seq<string> := ["E2", "A2", "D3", "G3", "B3", "E4"]

  /** The steps at which the standard guitar strings open. */
  lemma {:induction false} StandardTuningSteps()
    ensures STANDARD_GUITAR[0] == LongNote(28) && STANDARD_GUITAR[1] == LongNote(33)
    ensures STANDARD_GUITAR[2] == LongNote(38) && STANDARD_GUITAR[3] == LongNote(43)
    ensures STANDARD_GUITAR[4] == LongNote(47) && STANDARD_GUITAR[5] == LongNote(52)
  {
    assert LongNote(28) == "E2" by { assert NatToString(2) == "2"; }
    assert LongNote(33) == "A2" by { assert NatToString(2) == "2"; }
    assert LongNote(38) == "D3" by { assert NatToString(3) == "3"; }
    assert LongNote(43) == "G3" by { assert NatToString(3) == "3"; }
    assert LongNote(47) == "B3" by { assert NatToString(3) == "3"; }
    assert LongNote(52) == "E4" by { assert NatToString(4) == "4"; }
  }

  /** A string tuned to the long note of step k opens at step k. */
  lemma {:induction false} OpensAtStep(cfg: Config, s: nat, k: nat)
    requires s < |cfg.tuning| && cfg.tuning[s] == LongNote(k)
    ensures ParseLongNote(cfg.tuning[s]) == Some(k)
  {
    ParseLongNoteOf(k);
  }

  /** So each standard string parses back to its opening step. */
  lemma {:induction false} StandardTuningParses(cfg: Config)
    requires cfg.tuning == STANDARD_GUITAR
    ensures ParseLongNote(cfg.tuning[0]) == Some(28) && ParseLongNote(cfg.tuning[1]) == Some(33)
    ensures ParseLongNote(cfg.tuning[2]) == Some(38) && ParseLongNote(cfg.tuning[3]) == Some(43)
    ensures ParseLongNote(cfg.tuning[4]) == Some(47) && ParseLongNote(cfg.tuning[5]) == Some(52)
  {
    StandardTuningSteps();
    OpensAtStep(cfg, 0, 28);
    OpensAtStep(cfg, 1, 33);
    OpensAtStep(cfg, 2, 38);
    OpensAtStep(cfg, 3, 43);
    OpensAtStep(cfg, 4, 47);
    OpensAtStep(cfg, 5, 52);
  }

  /** A tuning whose every entry is swept gets one key per string. */
  lemma {:induction false} AllStringsOpen(cfg: Config)
    requires forall s :: 0 <= s < |cfg.tuning| ==> OpensBefore(cfg.tuning[s], SWEEP_STEPS)
    ensures forall k :: k in KeySet(BuildFretboard(cfg)) <==> k.IntKey? && 0 <= k.i < |cfg.tuning|
  {
    var keys := KeySet(BuildFretboard(cfg));
    forall k ensures k in keys <==> k.IntKey? && 0 <= k.i < |cfg.tuning| {
      if k.IntKey? && 0 <= k.i < |cfg.tuning| {
        assert Opened(cfg, k.i, SWEEP_STEPS);
      }
    }
  }

  lemma {:induction false} StandardAllOpen(cfg: Config)
    requires cfg.tuning == STANDARD_GUITAR
    ensures |cfg.tuning| == 6
    ensures forall s :: 0 <= s < |cfg.tuning| ==> OpensBefore(cfg.tuning[s], SWEEP_STEPS)
  {
    StandardTuningParses(cfg);
    forall s | 0 <= s < |cfg.tuning| ensures OpensBefore(cfg.tuning[s], SWEEP_STEPS) {
      if s == 0 {} else if s == 1 {} else if s == 2 {} else if s == 3 {} else if s == 4 {} else {}
    }
  }

  lemma {:induction false} FirstSixKeys(keys: set<PyKey>)
    requires forall k :: k in keys <==> k.IntKey? && 0 <= k.i < 6
    ensures keys == {IntKey(0), IntKey(1), IntKey(2), IntKey(3), IntKey(4), IntKey(5)}
  {
    var six := {IntKey(0), IntKey(1), IntKey(2), IntKey(3), IntKey(4), IntKey(5)};
    forall k ensures k in keys <==> k in six {
      if k.IntKey? && 0 <= k.i < 6 {
        assert k == IntKey(k.i);
      }
    }
  }

  /** Standard tuning: all six strings open, so the board has exactly the keys 0..5. */
  lemma {:induction false} StandardTuningKeys(cfg: Config)
    requires cfg.tuning == STANDARD_GUITAR
    ensures KeySet(BuildFretboard(cfg)) == {IntKey(0), IntKey(1), IntKey(2), IntKey(3), IntKey(4), IntKey(5)}
  {
    StandardAllOpen(cfg);
    AllStringsOpen(cfg);
    FirstSixKeys(KeySet(BuildFretboard(cfg)));
  }

  /** The first fret of string s opened at step o, and its fret 12. */
  lemma {:induction false} FretsOfString(cfg: Config, s: nat, o: nat)
    requires s < |cfg.tuning| && ParseLongNote(cfg.tuning[s]) == Some(o) && o + 12 < SWEEP_STEPS && cfg.frets >= 12
    ensures var v := Lookup(BuildFretboard(cfg), IntKey(s));
            && v.Some? && v.value.Mapping? && |v.value.items| == Min(cfg.frets + 1, SWEEP_STEPS - o)
            && v.value.items[0] == (StrKey(LongNote(o)), Attributes(0, Frequency(o + DEFAULT_START), GetColor(cfg.colored, LongNote(o))))
            && v.value.items[12].0 == StrKey(LongNote(o + 12))
  {
    StringFrets(cfg, s, o);
  }

  lemma {:induction false} StandardNoteNames()
    ensures LongNote(33) == "A2" && LongNote(40) == "E3"
  {
    assert NatToString(2) == "2";
    assert NatToString(3) == "3";
  }

  /** Standard tuning with the default 24 frets: the low E string (0) opens at
      step 28 and holds all 25 frets, with "E3" one octave up at fret 12. */
  lemma {:induction false} StandardTuningLowE(cfg: Config)
    requires cfg.tuning == STANDARD_GUITAR && cfg.frets == NUMBER_OF_FRETS
    ensures var v := Lookup(BuildFretboard(cfg), IntKey(0));
            && v.Some? && v.value.Mapping? && |v.value.items| == 25
            && v.value.items[12].0 == StrKey("E3")
  {
    StandardTuningParses(cfg);
    FretsOfString(cfg, 0, 28);
    StandardNoteNames();
  }

  /** Standard tuning: the open A string (1) is "A2" at step 33, whose
      frequency `get_frequency(36)` is exactly 110 Hz. */
  lemma {:induction false} StandardTuningOpenA(cfg: Config)
    requires cfg.tuning == STANDARD_GUITAR && cfg.frets == NUMBER_OF_FRETS
    ensures var v := Lookup(BuildFretboard(cfg), IntKey(1));
            && v.Some? && v.value.Mapping? && |v.value.items| > 0
            && v.value.items[0] == (StrKey("A2"), Attributes(0, Frequency(36), GetColor(cfg.colored, "A2")))
    ensures ExactFrequencyText(36) == Some("110.00")
  {
    StandardTuningParses(cfg);
    FretsOfString(cfg, 1, 33);
    StandardNoteNames();
    OpenAFrequency();
  }

  lemma OpenAText()
    ensures FormatCents(11000) == "110.00"
  {
    assert NatToString(11) == "11";
    assert NatToString(110) == "110";
  }

  lemma {:induction false} OpenAFrequency()
    ensures ExactFrequencyText(36) == Some("110.00")
  {
    assert Pow2(3) == 8;
    assert 1375 * Pow2(36 / 12) == 11000;
    OpenAText();
  }
}
