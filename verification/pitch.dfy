/** Pitch primitives of fretless/tools.py (and their copies in sol/sol.py):
    the cyclic note-name generator, the frequency generator, the long-note
    label "<name><octave>" and the exact cases of the frequency text. */
module Pitch {
  import opened Wrappers
  import opened Decimal

  /** The twelve chromatic names in sharp spelling, starting at C. */
  const NOTES: seq<string> := ["C", "C#", "D", "D#", "E", "F", "F#", "G", "G#", "A", "A#", "B"]

  const FREQUENCY_ROUND_DECIMALS: nat := 2

  /** Default first exponent index of the frequency generator: n = 3 is C0. */
  const DEFAULT_START: int := 3

  /** The text `get_frequency(n)` returns: 440/32 * 2^(n/12) Hz rounded to two
      decimals. Irrational unless 12 divides n, so it is kept abstract and
      identified by its exponent index n. */
  datatype Frequency = Frequency(exponent: int)

  // ---------------------------------------------------------------------------
  // Generators, as explicit state machines: `next(gen)` is `Next…(state)`.

  /** `get_notes_generator()`: `pos` is the position of the inner `for note in NOTES`. */
  datatype NotesGenerator = NotesGenerator(pos: nat)

  const NOTES_GENERATOR_START := NotesGenerator(0)

  predicate ValidNotes(g: NotesGenerator) {
    g.pos < |NOTES|
  }

  /** One `next()`: yield the current name; after the last one the `while True`
      restarts the `for` loop. */
  function NextNote(g: NotesGenerator): (r: (string, NotesGenerator))
    requires ValidNotes(g)
    ensures ValidNotes(r.1)
    ensures r.1.pos == (g.pos + 1) % |NOTES|
  {
    (NOTES[g.pos], if g.pos + 1 == |NOTES| then NotesGenerator(0) else NotesGenerator(g.pos + 1))
  }

  /** The next `k` values of the generator, and its state afterwards. */
  function TakeNotes(g: NotesGenerator, k: nat): (r: (seq<string>, NotesGenerator))
    requires ValidNotes(g)
    ensures |r.0| == k && ValidNotes(r.1)
    decreases k
  {
    if k == 0 then ([], g)
    else
      var step := NextNote(g);
      var rest := TakeNotes(step.1, k - 1);
      ([step.0] + rest.0, rest.1)
  }

  /** Advancing one position and then `q` more lands where `q + 1` steps from `p` would. */
  lemma ShiftOne(p: nat, q: nat)
    requires p < 12
    ensures ((p + 1) % 12 + q) % 12 == (p + q + 1) % 12
  {
    if p == 11 {
      assert (p + 1) % 12 == 0;
      assert (p + q + 1) % 12 == (q + 12) % 12;
    } else {
      assert (p + 1) % 12 == p + 1;
    }
  }

  /** The j-th value drawn is the name at the position the generator has reached after j draws. */
  lemma {:induction false} TakeNotesAtState(g: NotesGenerator, k: nat, j: nat)
    requires ValidNotes(g) && j < k
    ensures TakeNotes(g, k).0[j] == NOTES[TakeNotes(g, j).1.pos]
    decreases j
  {
    if j > 0 {
      var g1 := NextNote(g).1;
      var i := j - 1;
      var ys := TakeNotes(g1, k - 1).0;
      assert TakeNotes(g, k).0 == [NOTES[g.pos]] + ys;
      assert TakeNotes(g, j).1 == TakeNotes(g1, i).1;
      TakeNotesAtState(g1, k - 1, i);
    }
  }

  /** The j-th value drawn from a notes generator at position p is NOTES[(p + j) mod 12]. */
  lemma TakeNotesAt(g: NotesGenerator, k: nat, j: nat)
    requires ValidNotes(g) && j < k
    ensures TakeNotes(g, k).0[j] == NOTES[(g.pos + j) % 12]
  {
    TakeNotesAtState(g, k, j);
    TakeNotesEnd(g, j);
  }

  /** After `k` values the generator sits at position (p + k) mod 12. */
  lemma {:induction false} TakeNotesEnd(g: NotesGenerator, k: nat)
    requires ValidNotes(g)
    ensures TakeNotes(g, k).1.pos == (g.pos + k) % 12
    decreases k
  {
    if k > 0 {
      var g1 := NextNote(g).1;
      var i := k - 1;
      assert TakeNotes(g, k).1 == TakeNotes(g1, i).1;
      TakeNotesEnd(g1, i);
      assert TakeNotes(g1, i).1.pos == (g1.pos + i) % 12;
      assert g1.pos == (g.pos + 1) % 12;
      ShiftOne(g.pos, i);
      assert g.pos + i + 1 == g.pos + k;
    }
  }

  /** The k-th value of a fresh `get_notes_generator()` is NOTES[k mod 12]. */
  lemma NotesGeneratorValue(k: nat)
    ensures TakeNotes(NOTES_GENERATOR_START, k + 1).0[k] == NOTES[k % 12]
    ensures TakeNotes(NOTES_GENERATOR_START, k).1.pos == k % 12
  {
    var g := NOTES_GENERATOR_START;
    assert g.pos == 0;
    TakeNotesAtState(g, k + 1, k);
    TakeNotesEnd(g, k);
    assert TakeNotes(g, k).1.pos == k % 12;
  }

  /** `get_frequency_generator(start)`: `n` is the exponent index of the next value. */
  datatype FrequencyGenerator = FrequencyGenerator(n: int)

  /** One `next()`: yield `get_frequency(n)`, then `n += 1`. */
  function NextFrequency(g: FrequencyGenerator): (r: (Frequency, FrequencyGenerator))
    ensures r.1.n == g.n + 1
  {
    (Frequency(g.n), FrequencyGenerator(g.n + 1))
  }

  function TakeFrequencies(g: FrequencyGenerator, k: nat): (r: (seq<Frequency>, FrequencyGenerator))
    ensures |r.0| == k
    decreases k
  {
    if k == 0 then ([], g)
    else
      var step := NextFrequency(g);
      var rest := TakeFrequencies(step.1, k - 1);
      ([step.0] + rest.0, rest.1)
  }

  /** The j-th value of `get_frequency_generator(start)` is `get_frequency(start + j)`. */
  lemma {:induction false} TakeFrequenciesValue(start: int, k: nat)
    ensures forall j :: 0 <= j < k ==> TakeFrequencies(FrequencyGenerator(start), k).0[j] == Frequency(start + j)
    ensures TakeFrequencies(FrequencyGenerator(start), k).1.n == start + k
    decreases k
  {
    if k > 0 {
      TakeFrequenciesValue(start + 1, k - 1);
      var g := FrequencyGenerator(start);
      forall j | 1 <= j < k
        ensures TakeFrequencies(g, k).0[j] == Frequency(start + j)
      {
        assert TakeFrequencies(g, k).0[j] == TakeFrequencies(FrequencyGenerator(start + 1), k - 1).0[j - 1];
      }
    }
  }

  // ---------------------------------------------------------------------------
  // Long notes: "<name><octave>", e.g. "E2".

  /** Number of sweep steps of the fretboard builder: C0 .. B10. */
  const SWEEP_STEPS: nat := 132

  /** The long note at sweep step k of the builder: name k mod 12, octave k div 12. */
  function LongNote(k: nat): string
  {
    NOTES[k % 12] + NatToString(k / 12)
  }

  /** Position of a note name in NOTES. */
  function NoteIndex(name: string): (r: Option<nat>)
    ensures r.Some? ==> r.value < 12 && NOTES[r.value] == name
    ensures r.None? ==> name !in NOTES
  {
    if name == "C" then Some(0) else if name == "C#" then Some(1)
    else if name == "D" then Some(2) else if name == "D#" then Some(3)
    else if name == "E" then Some(4) else if name == "F" then Some(5)
    else if name == "F#" then Some(6) else if name == "G" then Some(7)
    else if name == "G#" then Some(8) else if name == "A" then Some(9)
    else if name == "A#" then Some(10) else if name == "B" then Some(11)
    else None
  }

  /** Reads a long note back to its sweep step: a sharp-spelled name followed by
      the canonical decimal octave. Flats, lower case and padded octaves are not
      long notes. */
  function ParseLongNote(x: string): Option<nat>
  {
    var cut := if |x| >= 2 && x[1] == '#' then 2 else 1;
    if |x| < cut then None
    else match (NoteIndex(x[..cut]), ParseNat(x[cut..]))
      case (Some(i), Some(oct)) => Some(12 * oct + i)
      case _ => None
  }

  /** Each name of NOTES is one letter, optionally followed by '#', and NoteIndex finds it. */
  lemma NameShape(i: nat)
    requires i < 12
    ensures NoteIndex(NOTES[i]) == Some(i)
    ensures |NOTES[i]| == 1 || (|NOTES[i]| == 2 && NOTES[i][1] == '#')
  {
  }

  /** Every long note parses back to its own step. */
  lemma ParseLongNoteOf(k: nat)
    ensures ParseLongNote(LongNote(k)) == Some(k)
  {
    var i := k % 12;
    var o := k / 12;
    var name := NOTES[i];
    var digits := NatToString(o);
    var x := LongNote(k);
    assert x == name + digits;
    NameShape(i);
    NatToStringCanonical(o);
    ParseNatToString(o);
    var cut := if |x| >= 2 && x[1] == '#' then 2 else 1;
    if |name| == 1 {
      assert x[1] == digits[0];
      assert IsDigit(x[1]);
    }
    assert cut == |name|;
    assert x[..cut] == name && x[cut..] == digits;
    assert 12 * o + i == k;
  }

  /** A string that parses to step k is exactly the long note of step k. */
  lemma LongNoteOfParse(x: string, k: nat)
    requires ParseLongNote(x) == Some(k)
    ensures LongNote(k) == x
  {
    var cut := if |x| >= 2 && x[1] == '#' then 2 else 1;
    var i := NoteIndex(x[..cut]).value;
    var oct := ParseNat(x[cut..]).value;
    NatToStringParse(x[cut..]);
    assert k % 12 == i && k / 12 == oct;
    assert x == x[..cut] + x[cut..];
  }

  /** The long note of step k equals x exactly when x parses to k. */
  lemma LongNoteMatches(x: string, k: nat)
    ensures LongNote(k) == x <==> ParseLongNote(x) == Some(k)
  {
    ParseLongNoteOf(k);
    if ParseLongNote(x) == Some(k) {
      LongNoteOfParse(x, k);
    }
  }

  /** Distinct sweep steps give distinct long notes. */
  lemma LongNoteInjective(j: nat, k: nat)
    requires j != k
    ensures LongNote(j) != LongNote(k)
  {
    ParseLongNoteOf(j);
    ParseLongNoteOf(k);
  }

  /** The builder's 132 steps run from C0 to B10. */
  lemma SweepEnds()
    ensures LongNote(0) == "C0"
    ensures LongNote(SWEEP_STEPS - 1) == "B10"
  {
    assert NatToString(10) == NatToString(1) + [DigitChar(0)];
  }

  // ---------------------------------------------------------------------------
  // Exact frequency text.

  function Pow2(m: nat): (r: nat)
    ensures r >= 1
  {
    if m == 0 then 1 else 2 * Pow2(m - 1)
  }

  /** `'%.2f'` of a value given in hundredths. */
  function FormatCents(c: nat): string
  {
    NatToString(c / 100) + "." + [DigitChar(c / 10 % 10), DigitChar(c % 10)]
  }

  /** A decimal with exactly two digits after the point. */
  predicate TwoDecimals(s: string) {
    |s| >= 4 && s[|s| - 3] == '.' && IsDigit(s[|s| - 2]) && IsDigit(s[|s| - 1])
    && Canonical(s[..|s| - 3])
  }

  /** Reads a two-decimal text back to hundredths. */
  function ParseCents(s: string): Option<nat>
  {
    if TwoDecimals(s) then
      Some(100 * DigitsValue(s[..|s| - 3]) + 10 * DigitValue(s[|s| - 2]) + DigitValue(s[|s| - 1]))
    else None
  }

  /** Hundreds, tens and units put back together. */
  lemma CentsDigits(c: nat)
    ensures 100 * (c / 100) + 10 * (c / 10 % 10) + c % 10 == c
  {
    var t := c / 10;
    assert c == 10 * t + c % 10;
    assert t == 10 * (t / 10) + t % 10;
    assert t / 10 == c / 100;
  }

  lemma FormatCentsRoundTrip(c: nat)
    ensures TwoDecimals(FormatCents(c))
    ensures ParseCents(FormatCents(c)) == Some(c)
  {
    var s := FormatCents(c);
    var ip := NatToString(c / 100);
    var tens := DigitChar(c / 10 % 10);
    var units := DigitChar(c % 10);
    assert s == ip + ['.', tens, units];
    assert |s| == |ip| + 3;
    assert s[|s| - 3] == '.' && s[|s| - 2] == tens && s[|s| - 1] == units;
    assert s[..|s| - 3] == ip;
    NatToStringCanonical(c / 100);
    ParseNatToString(c / 100);
    assert DigitsValue(ip) == c / 100;
    assert DigitValue(tens) == c / 10 % 10 && DigitValue(units) == c % 10;
    CentsDigits(c);
  }

  /** `get_frequency(n)` when it is exact: 440/32 * 2^(n/12) is 1375 * 2^(n/12)
      hundredths of a hertz, which a double holds exactly and `round`/`'%.2f'`
      print unchanged as long as 2^(n/12) * 13.75 stays below the largest double. */
  function ExactFrequencyText(n: int): (r: Option<string>)
    ensures r.Some? <==> 0 <= n && n % 12 == 0 && n / 12 <= 1020
    ensures r.Some? ==> TwoDecimals(r.value)
  {
    if 0 <= n && n % 12 == 0 && n / 12 <= 1020 then
      FormatCentsRoundTrip(1375 * Pow2(n / 12));
      Some(FormatCents(1375 * Pow2(n / 12)))
    else None
  }

  /** The exact frequencies, read back in hundredths: 13.75 Hz times 2^(n/12). */
  lemma ExactFrequencyCents(n: int)
    requires 0 <= n && n % 12 == 0 && n / 12 <= 1020
    ensures ParseCents(ExactFrequencyText(n).value) == Some(1375 * Pow2(n / 12))
  {
    FormatCentsRoundTrip(1375 * Pow2(n / 12));
  }

  /** Twelve semitones up doubles the frequency. */
  lemma OctaveDoubles(n: int)
    requires 0 <= n && n % 12 == 0 && n / 12 < 1020
    ensures ParseCents(ExactFrequencyText(n + 12).value).value
         == 2 * ParseCents(ExactFrequencyText(n).value).value
  {
    ExactFrequencyCents(n);
    ExactFrequencyCents(n + 12);
    assert (n + 12) / 12 == n / 12 + 1;
  }

  lemma SmallPowers()
    ensures Pow2(2) == 4 && Pow2(5) == 32
  {
    assert Pow2(3) == 8;
    assert Pow2(4) == 16;
  }

  lemma AnchorNumerals()
    ensures NatToString(1) == "1" && NatToString(4) == "4"
    ensures NatToString(55) == "55" && NatToString(440) == "440"
  {
    assert NatToString(44) == "44";
  }

  lemma AnchorNotes()
    ensures LongNote(57) == "A4" && LongNote(21) == "A1"
  {
    AnchorNumerals();
  }

  lemma AnchorTexts()
    ensures FormatCents(44000) == "440.00" && FormatCents(5500) == "55.00"
  {
    AnchorNumerals();
  }

  /** With the generator's default start, step 57 is A4 at exactly 440 Hz and
      step 21 is A1 at exactly 55 Hz. */
  lemma DefaultStartAnchors()
    ensures LongNote(57) == "A4" && ExactFrequencyText(57 + DEFAULT_START) == Some("440.00")
    ensures LongNote(21) == "A1" && ExactFrequencyText(21 + DEFAULT_START) == Some("55.00")
  {
    AnchorNotes();
    SmallPowers();
    assert (57 + DEFAULT_START) / 12 == 5 && (21 + DEFAULT_START) / 12 == 2;
    assert 1375 * Pow2(5) == 44000 && 1375 * Pow2(2) == 5500;
    AnchorTexts();
  }
}
