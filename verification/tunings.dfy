/** `Tunings` of fretless/resources_classes.py: the tuning catalogue, the
    numeric choice ids the command line offers, and the printed table. */
module Tunings {
  import opened Wrappers
  import opened Decimal
  import opened Text

  datatype TuningAttributes = TuningAttributes(description: string, notation: seq<string>)

  /** The catalogue: tuning id -> attributes, in insertion order (a Python dict). */
  type Content = seq<(string, TuningAttributes)>

  predicate UniqueIds(c: Content)
  {
    forall i, j :: 0 <= i < j < |c| ==> c[i].0 != c[j].0
  }

  datatype Tunings = Tunings(content: Content, choiceIds: seq<string>)

  /** `[str(i) for i in range(0, n)]`. */
  function ChoiceIds(n: nat): (r: seq<string>)
    ensures |r| == n
    ensures forall k :: 0 <= k < n ==> ParseNat(r[k]) == Some(k)
  {
    var r := seq(n, k requires 0 <= k < n => NatToString(k));
    assert forall k :: 0 <= k < n ==> ParseNat(r[k]) == Some(k) by {
      forall k | 0 <= k < n {
        ParseNatToString(k);
      }
    }
    r
  }

  /** `_update_choice_ids`: one decimal id per catalogue entry; the catalogue is untouched. */
  function UpdateChoiceIds(t: Tunings): (r: Tunings)
    ensures r.content == t.content
    ensures |r.choiceIds| == |t.content|
    ensures forall k :: 0 <= k < |t.content| ==> ParseNat(r.choiceIds[k]) == Some(k)
  {
    t.(choiceIds := ChoiceIds(|t.content|))
  }

  /** The dataclass constructor: `choice_ids` starts as None and `__post_init__` fills it. */
  function NewTunings(content: Content): Tunings
  {
    UpdateChoiceIds(Tunings(content, []))
  }

  /** `list(self.content)[int(choice_id)]`, with Python's negative indexing. */
  function GetTuningIdByChoiceId(t: Tunings, choiceId: string): (r: Result<string>)
    ensures ParseInt(choiceId).None? ==> r == Failure(ValueError)
    ensures ParseInt(choiceId).Some? ==>
              var i := ParseInt(choiceId).value;
              (r.Success? <==> -|t.content| <= i < |t.content|)
              && (r.Failure? ==> r.error == IndexError)
              && (0 <= i < |t.content| ==> r == Success(t.content[i].0))
              && (-|t.content| <= i < 0 ==> r == Success(t.content[|t.content| + i].0))
  {
    match ParseInt(choiceId)
    case None => Failure(ValueError)
    case Some(i) =>
      if 0 <= i < |t.content| then Success(t.content[i].0)
      else if -|t.content| <= i < 0 then Success(t.content[|t.content| + i].0)
      else Failure(IndexError)
  }

  /** `content[tuning_id]`, or KeyError. */
  function Find(c: Content, tuningId: string): (r: Result<TuningAttributes>)
    ensures r.Success? <==> exists i :: 0 <= i < |c| && c[i].0 == tuningId
    ensures r.Success? ==> exists i :: 0 <= i < |c| && c[i].0 == tuningId && c[i].1 == r.value
    ensures r.Failure? ==> r.error == KeyError
  {
    if |c| == 0 then Failure(KeyError)
    else if c[0].0 == tuningId then Success(c[0].1)
    else
      var r := Find(c[1..], tuningId);
      assert forall i :: 0 < i < |c| ==> c[i] == c[1..][i - 1];
      assert r.Success? ==> exists i :: 0 <= i < |c[1..]| && c[1..][i].0 == tuningId;
      r
  }

  /** `get_notation`. */
  function GetNotation(t: Tunings, tuningId: string): (r: Result<seq<string>>)
    ensures r.Success? <==> exists i :: 0 <= i < |t.content| && t.content[i].0 == tuningId
    ensures r.Success? ==> exists i :: 0 <= i < |t.content| && t.content[i].0 == tuningId
                                        && t.content[i].1.notation == r.value
    ensures r.Failure? ==> r.error == KeyError
  {
    match Find(t.content, tuningId)
    case Success(a) => Success(a.notation)
    case Failure(e) => Failure(e)
  }

  /** `get_description`. */
  function GetDescription(t: Tunings, tuningId: string): (r: Result<string>)
    ensures r.Success? <==> exists i :: 0 <= i < |t.content| && t.content[i].0 == tuningId
    ensures r.Success? ==> exists i :: 0 <= i < |t.content| && t.content[i].0 == tuningId
                                        && t.content[i].1.description == r.value
    ensures r.Failure? ==> r.error == KeyError
  {
    match Find(t.content, tuningId)
    case Success(a) => Success(a.description)
    case Failure(e) => Failure(e)
  }

  /** In a catalogue with unique ids, looking up the k-th id finds the k-th entry. */
  lemma FindAt(c: Content, k: nat)
    requires UniqueIds(c) && k < |c|
    ensures Find(c, c[k].0) == Success(c[k].1)
  {
  }

  /** Choosing id str(k) at the prompt selects the k-th tuning, and its notation
      and description are the stored ones. */
  lemma ChoiceSelectsTuning(c: Content, k: nat)
    requires UniqueIds(c) && k < |c|
    ensures GetTuningIdByChoiceId(NewTunings(c), NewTunings(c).choiceIds[k]) == Success(c[k].0)
    ensures GetNotation(NewTunings(c), c[k].0) == Success(c[k].1.notation)
    ensures GetDescription(NewTunings(c), c[k].0) == Success(c[k].1.description)
  {
    var t := NewTunings(c);
    ParseNatToString(k);
    NatToStringCanonical(k);
    assert ParseInt(t.choiceIds[k]) == Some(k);
    FindAt(c, k);
  }

  /** Distinct choice ids select distinct tunings. */
  lemma ChoicesDistinct(c: Content, j: nat, k: nat)
    requires UniqueIds(c) && j < |c| && k < |c| && j != k
    ensures NewTunings(c).choiceIds[j] != NewTunings(c).choiceIds[k]
    ensures GetTuningIdByChoiceId(NewTunings(c), NewTunings(c).choiceIds[j])
         != GetTuningIdByChoiceId(NewTunings(c), NewTunings(c).choiceIds[k])
  {
    ChoiceSelectsTuning(c, j);
    ChoiceSelectsTuning(c, k);
  }

  // ---------------------------------------------------------------------------
  // The printed table (`__str__`).

  function HeaderLine(): string
  {
    Ljust("ID", 4) + Ljust("TuningID", 14) + Ljust("Notation", 24) + "Description"
  }

  function Row(k: nat, tuningId: string, a: TuningAttributes): string
  {
    Ljust(NatToString(k), 4) + Ljust(tuningId, 14) + Ljust(Join(a.notation, ' '), 24) + a.description
  }

  function TableLines(t: Tunings): seq<string>
  {
    [HeaderLine()] + seq(|t.content|, k requires 0 <= k < |t.content| => Row(k, t.content[k].0, t.content[k].1))
  }

  /** `__str__`: the lines joined by newlines. */
  function ToString(t: Tunings): string
  {
    Join(TableLines(t), '\n')
  }

  predicate NoNewline(s: string)
  {
    '\n' !in s
  }

  /** Catalogue text that keeps the table one line per tuning. */
  predicate SingleLineFields(c: Content)
  {
    forall i :: 0 <= i < |c| ==>
      NoNewline(c[i].0) && NoNewline(c[i].1.description)
      && forall j :: 0 <= j < |c[i].1.notation| ==> NoNewline(c[i].1.notation[j])
  }

  lemma {:induction false} JoinNoNewline(xs: seq<string>, sep: char)
    requires sep != '\n'
    requires forall j :: 0 <= j < |xs| ==> NoNewline(xs[j])
    ensures NoNewline(Join(xs, sep))
    decreases |xs|
  {
    if |xs| > 1 {
      JoinNoNewline(xs[1..], sep);
    }
  }

  lemma LjustNoNewline(s: string, w: nat)
    requires NoNewline(s)
    ensures NoNewline(Ljust(s, w))
  {
    var r := Ljust(s, w);
    forall i | 0 <= i < |r| ensures r[i] != '\n' {
      if i < |s| {
        assert r[i] == r[..|s|][i];
      }
    }
  }

  lemma DecimalNoNewline(k: nat)
    ensures NoNewline(NatToString(k))
  {
    NatToStringCanonical(k);
  }

  lemma HeaderNoNewline()
    ensures NoNewline(HeaderLine())
  {
    LjustNoNewline("ID", 4);
    LjustNoNewline("TuningID", 14);
    LjustNoNewline("Notation", 24);
  }

  lemma RowNoNewline(t: Tunings, k: nat)
    requires SingleLineFields(t.content) && k < |t.content|
    ensures NoNewline(TableLines(t)[k + 1])
  {
    var a := t.content[k].1;
    DecimalNoNewline(k);
    LjustNoNewline(NatToString(k), 4);
    LjustNoNewline(t.content[k].0, 14);
    JoinNoNewline(a.notation, ' ');
    LjustNoNewline(Join(a.notation, ' '), 24);
  }

  /** The table has a header and then one line per tuning, in catalogue order. */
  lemma TableShape(t: Tunings)
    requires SingleLineFields(t.content)
    ensures Split(ToString(t), '\n') == TableLines(t)
    ensures |TableLines(t)| == |t.content| + 1
    ensures TableLines(t)[0] == HeaderLine()
  {
    var lines := TableLines(t);
    HeaderNoNewline();
    forall i | 0 <= i < |lines| ensures '\n' !in lines[i] {
      if i > 0 {
        RowNoNewline(t, i - 1);
      }
    }
    SplitJoin(lines, '\n');
  }

  /** Row k opens with the choice id k followed by a space (for ids up to three
      digits), so the ID column shows exactly what the prompt accepts. */
  lemma RowShowsChoiceId(c: Content, k: nat)
    requires k < |c| && k < 1000
    ensures var line := TableLines(NewTunings(c))[k + 1];
            line[..IndexOf(line, ' ')] == NewTunings(c).choiceIds[k]
  {
    var line := TableLines(NewTunings(c))[k + 1];
    var id := NatToString(k);
    NatToStringShort(k);
    NatToStringCanonical(k);
    var col := Ljust(id, 4);
    assert line[..4] == col;
    assert line[|id|] == ' ';
    assert forall j :: 0 <= j < |id| ==> line[j] == id[j] && id[j] != ' ';
    assert IndexOf(line, ' ') == |id|;
    assert line[..|id|] == id;
  }

  /** The notation column holds the open-string notes joined by single spaces;
      splitting it on spaces gives them back. */
  lemma NotationColumn(t: Tunings, k: nat)
    requires k < |t.content|
    requires |t.content[k].1.notation| > 0
    requires forall j :: 0 <= j < |t.content[k].1.notation| ==> ' ' !in t.content[k].1.notation[j]
    ensures var start := |Ljust(NatToString(k), 4)| + |Ljust(t.content[k].0, 14)|;
            var col := Join(t.content[k].1.notation, ' ');
            start + |col| <= |TableLines(t)[k + 1]|
            && TableLines(t)[k + 1][start..start + |col|] == col
            && Split(col, ' ') == t.content[k].1.notation
  {
    var a := Ljust(NatToString(k), 4);
    var b := Ljust(t.content[k].0, 14);
    var col := Join(t.content[k].1.notation, ' ');
    var c := Ljust(col, 24);
    var line := TableLines(t)[k + 1];
    var rest := c + t.content[k].1.description;
    assert line == (a + b) + rest;
    assert line[|a| + |b|..] == rest;
    assert rest[..|col|] == c[..|col|] == col;
    assert line[|a| + |b|..|a| + |b| + |col|] == line[|a| + |b|..][..|col|];
    SplitJoin(t.content[k].1.notation, ' ');
  }
}
