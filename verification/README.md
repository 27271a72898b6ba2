# fretless — the fretboard builder, in Dafny

fretless is a command-line guitar tool. It lays the notes of a tuning out on a
fretboard. Its core is the **fretboard sweep** in `Fretless.create_fretboard`:

- 132 steps run from C0 to B10.
- At each step a *long note* is built from a cyclic note-name generator and an
  octave counter ("E2", "A#4", ...), together with the frequency text of that step.
- A tuning string opens the first time the swept long note equals its notation
  entry. From then on it gets one fret per step: `note_id` is the size of the
  string's dict, and recording stops after `number_of_frets` (24).
- The result is a dict keyed by string index, sorted by key.

Two helpers go with the sweep: a recursive nested-dict merge
(`_update_dictionary`) and a three-tier colour lookup (`_get_color`).

The project also models three related parts:

- **The pitch generators** of `fretless/tools.py`.
- **`get_notes_index`** in `sol/sol.py`, an older variant of the sweep. It fills
  per-string lists of labels and frequency texts for a guitar and a bass, runs
  over loop indices 3..99 and reverses its matrices at the end.
- **The `Tunings` catalogue**: its numeric choice ids, the id-to-tuning lookup,
  and the table printed by `__str__`.

The model is purely functional:

- Python generators are state machines (`NotesGenerator`, `FrequencyGenerator`).
- Dicts are insertion-ordered association lists (`PyDict.Items`).
- Loops are recursive functions (`Fretless.Run`) or a `while` loop with
  invariants (`Sol.GetNotesIndex`).
- A frequency is identified by its integer exponent index `n`, as
  `Frequency(n)`. Its exact text is computed only where it is exact.

Modules:

| file | module | models |
|---|---|---|
| wrappers.dfy | Wrappers | `Option`, `Result` and the Python exceptions raised (`ValueError`, `IndexError`, `KeyError`) |
| decimal.dfy | Decimal | `str(n)` of a natural number and `int(s)` |
| text.dfy | Text | `ljust`, `sep.join`, `split` |
| pitch.dfy | Pitch | `get_notes_generator`, `get_frequency_generator`, `get_frequency`, long notes |
| pydict.dfy | PyDict, PyDictSort | dicts, `_update_dictionary`, `dict(sorted(d.items()))` |
| tunings.dfy | Tunings | the `Tunings` dataclass |
| fretless.dfy | Fretless | `_get_color`, one sweep step and its loop invariant |
| fretboard.dfy | Fretboard | `create_fretboard` and the properties of its result |
| sol.dfy | Sol | `get_notes_index` |

## Model

| member | source | states |
|---|---|---|
| Pitch.TakeNotesAt | fretless/tools.py:22-25 | The j-th name drawn from a generator at position p is `NOTES[(p + j) mod 12]`. |
| Pitch.NotesGeneratorValue | fretless/tools.py:22-25 | The k-th value of a fresh `get_notes_generator()` is `NOTES[k mod 12]`, for every k: the names cycle forever. After k draws the generator is at position k mod 12. |
| Pitch.TakeFrequenciesValue | fretless/tools.py:14-19 | The j-th value of `get_frequency_generator(start)` is `get_frequency(start + j)`. After k values the next exponent is start + k. |
| Pitch.ExactFrequencyText | fretless/tools.py:6-11 | The frequency text is exact exactly when n >= 0, 12 divides n, and the value stays in double range. It then has exactly two digits after the decimal point. |
| Pitch.FormatCentsRoundTrip | fretless/tools.py:8-9 | The `'%.2f'` text of a value in hundredths is a canonical integer part, a point and two digits, and it reads back to the same value. |
| Pitch.ExactFrequencyCents | fretless/tools.py:7 | When 12 divides n, the printed value is 440/32 · 2^(n/12) Hz, i.e. 1375 · 2^(n/12) hundredths. |
| Pitch.OctaveDoubles | fretless/tools.py:7 | When 12 divides n and both texts are in double range, the printed frequency of n + 12 is twice that of n. |
| Pitch.DefaultStartAnchors | fretless/tools.py:14-15 | With the default start 3, sweep step 57 is "A4" at exactly "440.00" Hz, and step 21 is "A1" at exactly "55.00" Hz. |
| Pitch.ParseLongNoteOf | fretless/fretless.py:84-90 | The long note of step k (name k mod 12, octave k div 12) reads back to k. |
| Pitch.LongNoteOfParse | fretless/fretless.py:84-90 | Any text that reads back to step k is exactly the long note of step k. |
| Pitch.LongNoteMatches | fretless/fretless.py:96-97 | A tuning entry equals the long note of step k if and only if it reads back to k. |
| Pitch.LongNoteInjective | fretless/fretless.py:90 | Distinct sweep steps give distinct long notes. |
| Pitch.SweepEnds | fretless/fretless.py:81-90 | The 132-step sweep starts at "C0" and ends at "B10". |
| Fretless.GetColor | fretless/fretless.py:137-143 | A colour is found iff the long note or the long note minus its last character is a key. An exact long-note key always wins. Otherwise the default (None) is returned. |
| Fretless.ColorFallbackIsName | fretless/fretless.py:140-141 | In octaves 0..9 the fallback key is the bare note name. |
| Fretless.ColorFallbackOctaveTen | fretless/fretless.py:140-141 | In octave 10 the fallback drops only the "0": "E10" is looked up as "E1", the long note 108 steps lower. |
| Fretless.ShippedColorByName | fretless/fretless.py:35-65 | With the shipped table, "B3" has no entry of its own and is red through "B". |
| Fretless.ShippedColorByLongNote | fretless/fretless.py:35-65 | With the shipped table, "E2" is yellow through its own entry. |
| Fretless.ShippedColorOctaveTen | fretless/fretless.py:35-65 | With the shipped table, "B10" falls back to "B1", which has no entry, so it gets no colour. |
| Fretless.MatchingStrings | fretless/fretless.py:96-98 | A step opens exactly the tuning indices whose entry equals the swept long note. Duplicate entries all open, in ascending order. |
| Fretless.Record | fretless/fretless.py:101-119 | Recording one string changes only that string's key. Its value becomes the merge of one fret with `note_id` = the dict's size, or stays unchanged past the fret cap. |
| Fretless.RecordAll | fretless/fretless.py:101-119 | The inner loop over distinct open strings records each one once and leaves every other key unchanged. |
| PyDict.Assign | fretless/fretless.py:135 | `d[k] = v`: k then reads v and other keys read as before. An existing key keeps its position; a new key goes last. |
| PyDict.MergedValue | fretless/fretless.py:132-135 | A mapping over a mapping is merged, so the keys are the union. Any other pair is replaced by the update value. |
| PyDict.UpdateDictionary | fretless/fretless.py:128-135 | The merged keys are the union of both dicts' keys. Keys absent from the update read as before. Keys stay unique, and existing keys keep their positions. |
| PyDict.UpdateDictionaryValue | fretless/fretless.py:130-135 | Each key of the update ends up holding the merge of its old value with the update's value. |
| PyDict.UpdateWithNewKey | fretless/fretless.py:130-135 | Merging a one-item dict whose key is not yet in the base gives the base with that item appended at the end, value unchanged. |
| PyDictSort.SortByIntKey | fretless/fretless.py:121 | The result has strictly ascending int keys. It holds the same items (as a multiset), with the same key set and the same value under every key. |
| Fretless.DrawAt | fretless/fretless.py:82-90 | Iteration n draws the long note of step n and `get_frequency(n + 3)`. The octave counter and both generators stay in step. |
| Fretless.FretTableFreshKey | fretless/fretless.py:110-119 | The long note of the step after a string's last fret is never already a key of that string's dict. |
| Fretless.FretTableGrows | fretless/fretless.py:102-119 | So recording the next step appends exactly one fret: the dict's size is the fret number. |
| Fretless.TableAfterStep | fretless/fretless.py:101-119 | Step n turns the dict of a string opened at step o into its next state: fret 0 on opening, one more fret below the cap, unchanged at the cap. |
| Fretless.OpenStep | fretless/fretless.py:96-98 | After step n, `indices_open_strings` holds each string whose entry was swept by then, exactly once. |
| Fretless.BoardStep | fretless/fretless.py:100-119 | After step n, every string's dict is the one specified for n + 1 steps, and no other keys exist. |
| Fretless.StepKeepsInvariant | fretless/fretless.py:82-119 | One iteration keeps the loop invariant: generators, open strings and board. |
| Fretboard.RunKeepsInvariant | fretless/fretless.py:79-119 | After any number of iterations the loop invariant holds. |
| Fretboard.BuildFretboard | fretless/fretless.py:74-121 | The built board has ascending, unique int keys. A string has a key exactly when its tuning entry was swept in the 132 steps. Every string's value is the one the loop invariant specifies after the last step. |
| Fretboard.CreateFretboard | fretless/fretless.py:70-121 | An unknown tuning id raises KeyError; otherwise the result is the board built from that tuning's notation. |
| Fretboard.OpenStringsGrow | fretless/fretless.py:79-98 | `indices_open_strings` only grows: what is open after m steps stays open, in the same order. |
| Fretboard.AlikeStringsAlikeFrets | fretless/fretless.py:96-98 | Two strings with the same tuning entry get the same frets. |
| Fretboard.StringFrets | fretless/fretless.py:101-119 | Fret j of a string opened at step o is the long note of step o + j, with `note_id` j, the frequency of that step and its colour. Fret 0 is the tuning entry itself. There are exactly min(frets + 1, 132 − o) frets. |
| Fretboard.UnsweptEntries | fretless/fretless.py:96-101 | Entries that are never swept ("C11", a flat "Bb3", a bare "E") give the string no key, and no error is raised. |
| Fretboard.TopStringTruncated | fretless/fretless.py:82-119 | A string tuned to "E10" keeps only 8 frets, the last "B10", whenever at least 7 frets are allowed. |
| Fretboard.StandardTuningKeys | fretless/fretless.py:74-121 | Standard guitar tuning gives keys 0..5. |
| Fretboard.StandardTuningLowE | fretless/fretless.py:101-119 | In standard tuning with 24 frets, the low E string holds 25 frets, with "E3" at fret 12. |
| Fretboard.StandardTuningOpenA | fretless/fretless.py:101-119 | In standard tuning the open A string is "A2" at `note_id` 0, and its frequency is exactly "110.00". |
| Tunings.UpdateChoiceIds | fretless/resources_classes.py:22-30 | `choice_ids` has one entry per tuning, and entry k reads as the number k. The catalogue is unchanged. |
| Tunings.GetTuningIdByChoiceId | fretless/resources_classes.py:32-37 | Non-numeric text raises ValueError. An in-range index selects that tuning id, counting from the end when negative. Any other index raises IndexError. |
| Tunings.GetNotation | fretless/resources_classes.py:39-40 | Returns the stored notation of the id, or KeyError. |
| Tunings.GetDescription | fretless/resources_classes.py:42-43 | Returns the stored description of the id, or KeyError. |
| Tunings.ChoiceSelectsTuning | fretless/resources_classes.py:27-43 | Choice id `str(k)` selects the k-th tuning in insertion order, and its notation and description are the stored ones. |
| Tunings.ChoicesDistinct | fretless/resources_classes.py:27-37 | Distinct choice ids select distinct tunings. |
| Tunings.TableShape | fretless/resources_classes.py:45-64 | The printed table splits at its newlines into exactly n + 1 lines, the header first, then one line per tuning: no field breaks a line. |
| Tunings.RowShowsChoiceId | fretless/resources_classes.py:54-58 | In the line of tuning k, the text before the first space is exactly its choice id. |
| Tunings.NotationColumn | fretless/resources_classes.py:55-60 | The notation column holds the open-string notes joined by single spaces, and splitting it gives them back. |
| Sol.SolLongNoteAsLongNote | sol/sol.py:75-84 | The sol label of index i names NOTES[(i − 3) mod 12] with octave i div 12, so the octave turns over at A. Names C..G# equal the fretless long note of step i − 3; A, A#, B equal that of step i + 9. |
| Sol.SolLongNoteMatches | sol/sol.py:84-89 | A tuning entry equals the label of loop index i if and only if it reads back to i. |
| Sol.SolOctaveAtA | sol/sol.py:38-42 | Index 24 is labelled "A2" and paired with exactly "55.00" Hz, the pitch fretless labels "A1". |
| Sol.SolFrequencyOffset | sol/sol.py:72-84 | At loop index i >= 3 sol pairs its label with `get_frequency(i)`. The fretless sweep step that draws the same long note pairs it with `get_frequency(i)` for names C..G#, and with `get_frequency(i + 12)`, one octave higher, for A, A# and B. |
| Sol.SolDrawAt | sol/sol.py:75-84 | At loop index i the drawn label is the sol label of i and the drawn frequency is `get_frequency(i)`. The octave counter and both generators stay in step with i. |
| Sol.Reverse | sol/sol.py:112-116 | `list.reverse()` puts element k at position len − 1 − k. |
| Sol.ReverseReverse | sol/sol.py:112-116 | Reversing twice restores the list. |
| Sol.AppendAll | sol/sol.py:91-94 | Over distinct appender indices, each open row of length at most 24 gets the label, and its frequency row gets the frequency. All other rows are unchanged. |
| Sol.InstrumentOpenStep | sol/sol.py:87-89 | After index i the appender list holds each string whose entry was swept by then, exactly once. |
| Sol.InstrumentStepKeeps | sol/sol.py:86-105 | One loop iteration keeps an instrument's invariant. |
| Sol.GetNotesIndex | sol/sol.py:65-116 | After the call, row len − 1 − s of each matrix holds string s's rows after the sweep: what it held, then the labels and frequencies of indices from its opening on, as many as fit in 25. |
| Sol.RowsAligned | sol/sol.py:91-105 | A string's label row and frequency row stay equal in length and keep their prefix. They never grow past 25 entries unless already longer. |
| Sol.RowsPaired | sol/sol.py:91-105 | Each appended label is paired with the frequency of the same loop index, counting from the string's opening index. |
| Sol.RowsStartAtEntry | sol/sol.py:87-94 | The first label appended to a row is the string's tuning entry. |
| Sol.FullRowUnchanged | sol/sol.py:92 | A row longer than 24 takes nothing more. |
| Sol.FullCallOnlyReverses | sol/sol.py:59-116 | Because the matrices are module state, a second call with every row full only reverses them back. |
| Sol.GuitarOpenings | sol/sol.py:22-27 | The standard guitar strings open at indices 31, 24, 41, 46, 38 and 55: A2 opens before E2. |
| Sol.EmptyRowFills | sol/sol.py:91-94 | A string opening at an index from 3 to 75 fills an empty row with 25 entries. |
| Sol.FirstCallGuitar | sol/sol.py:59-116 | On the first call, the last guitar row is the low E string, 25 labels from index 31. The row before it is the A string, whose first label "A2" carries exactly "55.00" Hz. |

## Left out

- Printing is not modelled. This covers the verbose print (fretless/fretless.py:92-93), the per-step print and `print_fretboards` of sol/sol.py, the whole of fretless/fretless_printer.py, and the CLI (click prompt, SIGINT handler, colorama). They only render or drive the builder.
- Frequency values are not modelled as numbers. `2 ** frac(n, 12)` is irrational unless 12 divides n, and `round` and `'%.2f'` work on floats. A frequency is kept as its exponent index `Frequency(n)`, and its text is computed only when it is exact.
- Pitch.ExactFrequencyText: gives no text for negative exponents or for exponents 12 does not divide, which the source prints rounded. Past double range (12 divides n, n / 12 > 1020) the source's `float()` raises OverflowError; the model returns None there.
- Fretboard.CreateFretboard: the reference pitch is left out. fretless/fretless.py:76 passes `a_pitch_hz=` to `get_frequency_generator`, which has no such parameter (fretless/tools.py:14), so that call would raise TypeError as written. The model follows the generator: start 3, base 440/32.
- `copy.deepcopy` (fretless/fretless.py:135) is left out: all values are immutable here.
- The resource tables (fretless/resources.py, sol/resources.py) are not modelled. Only the constants the core uses are restated: NOTES, `NUMBER_OF_FRETS`, the colour table, and the sol guitar and bass tunings.
- sol/__main__.py is not part of this model.
- Sol.GetNotesIndex: the tunings are parameters, and the module-level matrices are passed in and returned rather than mutated in place. The call also requires at least as many rows as tuning strings; the source raises IndexError only when an opened string has no row.
- Sol.GetNotesIndex: the inner `for i, ...` loops of sol/sol.py shadow the outer loop index. This is harmless, because `range_index` and `scale_index` are computed before they run and `for` rebinds `i` on the next iteration. The model keeps one index.
- Tunings.GetTuningIdByChoiceId: `int()` also accepts surrounding whitespace, a leading '+', digit-separating underscores and non-ASCII decimal digits (`int("٣") == 3`). These are treated here as ValueError. The source also accepts an int argument; the model takes the choice id as text only, so an int is given as its decimal text.
- Tunings.RowShowsChoiceId: stated for ids of at most three digits. A longer id fills the 4-wide column, so the id is no longer followed by a space.
