/** Python dicts as insertion-ordered association lists, and the recursive
    nested-dict merge `Fretless._update_dictionary` (fretless/fretless.py). */
module PyDict {
  import opened Wrappers
  import opened Pitch

  /** Keys the fretboard uses: string indices (int) and note/attribute names (str). */
  datatype PyKey = IntKey(i: int) | StrKey(s: string)

  /** Leaf values: ints, strings, None, and the (abstract) frequency text. */
  datatype PyAtom = PyInt(n: int) | PyStr(s: string) | PyNone | PyFreq(f: Frequency)

  /** A Python value: a leaf or a mapping, whose items are in insertion order. */
  datatype PyValue = Atom(atom: PyAtom) | Mapping(items: seq<(PyKey, PyValue)>)

  type Items = seq<(PyKey, PyValue)>

  function KeySet(d: Items): set<PyKey>
  {
    if |d| == 0 then {} else {d[0].0} + KeySet(d[1..])
  }

  /** What every Python dict satisfies: no key occurs twice. */
  predicate UniqueKeys(d: Items)
  {
    |d| == 0 || (d[0].0 !in KeySet(d[1..]) && UniqueKeys(d[1..]))
  }

  /** `d.get(k)`. */
  function Lookup(d: Items, k: PyKey): (r: Option<PyValue>)
    ensures r.Some? <==> k in KeySet(d)
  {
    if |d| == 0 then None
    else if d[0].0 == k then Some(d[0].1)
    else Lookup(d[1..], k)
  }

  /** `d[k] = v`: an existing key keeps its position, a new key goes last. */
  function Assign(d: Items, k: PyKey, v: PyValue): (r: Items)
    ensures Lookup(r, k) == Some(v)
    ensures forall k' :: k' != k ==> Lookup(r, k') == Lookup(d, k')
    ensures KeySet(r) == KeySet(d) + {k}
    ensures UniqueKeys(d) ==> UniqueKeys(r)
    ensures |d| <= |r| && forall i :: 0 <= i < |d| ==> r[i].0 == d[i].0
    ensures k !in KeySet(d) ==> r == d + [(k, v)]
  {
    if |d| == 0 then [(k, v)]
    else if d[0].0 == k then
      var r := [(k, v)] + d[1..];
      assert r[1..] == d[1..];
      r
    else
      var rest := Assign(d[1..], k, v);
      var r := [d[0]] + rest;
      assert r[1..] == rest;
      assert k !in KeySet(d) ==> d + [(k, v)] == [d[0]] + (d[1..] + [(k, v)]);
      r
  }

  /** In a dict, a key occurs at one position only. */
  lemma {:induction false} UniqueAt(d: Items, i: nat, j: nat)
    requires UniqueKeys(d) && i < j < |d|
    ensures d[i].0 != d[j].0
    ensures d[i].0 !in KeySet(d[i + 1..])
  {
    if i == 0 {
      KeySetHas(d[1..], j - 1);
    } else {
      assert d[1..][i - 1] == d[i] && d[1..][j - 1] == d[j];
      assert d[1..][i - 1 + 1..] == d[i + 1..];
      UniqueAt(d[1..], i - 1, j - 1);
    }
  }

  lemma {:induction false} KeySetHas(d: Items, i: nat)
    requires i < |d|
    ensures d[i].0 in KeySet(d)
  {
    if i > 0 {
      assert d[1..][i - 1] == d[i];
      KeySetHas(d[1..], i - 1);
    }
  }

  lemma {:induction false} KeySetIndex(d: Items, k: PyKey)
    requires k in KeySet(d)
    ensures exists i :: 0 <= i < |d| && d[i].0 == k
  {
    if d[0].0 != k {
      KeySetIndex(d[1..], k);
      var i :| 0 <= i < |d[1..]| && d[1..][i].0 == k;
      assert d[i + 1].0 == k;
    }
  }

  /** The value `_update_dictionary` leaves under a key that the update carries
      with value `v`, when the base held `prior` there: a mapping over a mapping is
      merged recursively, anything else replaces the prior value. */
  function MergedValue(prior: Option<PyValue>, v: PyValue): (r: PyValue)
    ensures !(v.Mapping? && prior.Some? && prior.value.Mapping?) ==> r == v
    ensures v.Mapping? && prior.Some? && prior.value.Mapping? ==>
              r.Mapping? && KeySet(r.items) == KeySet(prior.value.items) + KeySet(v.items)
    decreases v, if v.Mapping? then |v.items| + 1 else 0
  {
    match prior
    case Some(Mapping(b)) =>
      if v.Mapping? then Mapping(UpdateFrom(b, v, 0)) else v
    case _ => v
  }

  /** `_update_dictionary(base, update)` from the i-th item of `update` on. */
  function UpdateFrom(base: Items, update: PyValue, i: nat): (r: Items)
    requires update.Mapping? && i <= |update.items|
    ensures KeySet(r) == KeySet(base) + KeySet(update.items[i..])
    ensures forall k :: k !in KeySet(update.items[i..]) ==> Lookup(r, k) == Lookup(base, k)
    ensures UniqueKeys(base) ==> UniqueKeys(r)
    ensures |base| <= |r| && forall j :: 0 <= j < |base| ==> r[j].0 == base[j].0
    decreases update, |update.items| - i
  {
    if i == |update.items| then base
    else
      var k := update.items[i].0;
      var merged := Assign(base, k, MergedValue(Lookup(base, k), update.items[i].1));
      assert update.items[i..][1..] == update.items[i + 1..];
      UpdateFrom(merged, update, i + 1)
  }

  /** `_update_dictionary(base, update)`: merge `update` into `base`. */
  function UpdateDictionary(base: Items, update: Items): (r: Items)
    ensures KeySet(r) == KeySet(base) + KeySet(update)
    ensures forall k :: k !in KeySet(update) ==> Lookup(r, k) == Lookup(base, k)
    ensures UniqueKeys(base) ==> UniqueKeys(r)
    ensures |base| <= |r| && forall j :: 0 <= j < |base| ==> r[j].0 == base[j].0
  {
    assert update[0..] == update;
    UpdateFrom(base, Mapping(update), 0)
  }

  /** A key the update carries once gets exactly its merged value. */
  lemma {:induction false} UpdateFromValue(base: Items, update: PyValue, i: nat, j: nat)
    requires update.Mapping? && i <= j < |update.items|
    requires UniqueKeys(update.items)
    ensures Lookup(UpdateFrom(base, update, i), update.items[j].0)
         == Some(MergedValue(Lookup(base, update.items[j].0), update.items[j].1))
    decreases |update.items| - i
  {
    var k := update.items[i].0;
    var merged := Assign(base, k, MergedValue(Lookup(base, k), update.items[i].1));
    if i == j {
      if j + 1 < |update.items| {
        UniqueAt(update.items, j, j + 1);
      } else {
        assert update.items[j + 1..] == [];
      }
    } else {
      UniqueAt(update.items, i, j);
      UpdateFromValue(merged, update, i + 1, j);
    }
  }

  lemma UpdateDictionaryValue(base: Items, update: Items, j: nat)
    requires j < |update| && UniqueKeys(update)
    ensures Lookup(UpdateDictionary(base, update), update[j].0)
         == Some(MergedValue(Lookup(base, update[j].0), update[j].1))
  {
    UpdateFromValue(base, Mapping(update), 0, j);
  }

  /** A one-item update under a key the base does not hold appends that item. */
  lemma UpdateWithNewKey(base: Items, k: PyKey, v: PyValue)
    requires k !in KeySet(base)
    ensures UpdateDictionary(base, [(k, v)]) == base + [(k, v)]
  {
    var u := Mapping([(k, v)]);
    assert MergedValue(Lookup(base, k), v) == v;
    assert UpdateFrom(base, u, 0) == UpdateFrom(base + [(k, v)], u, 1);
  }
}

module PyDictSort {
  import opened Wrappers
  import opened PyDict

  predicate IntKeys(d: Items)
  {
    forall i :: 0 <= i < |d| ==> d[i].0.IntKey?
  }

  /** Each key smaller than the next. */
  predicate Ascending(d: Items)
    requires IntKeys(d)
  {
    |d| <= 1 || (d[0].0.i < d[1].0.i && Ascending(d[1..]))
  }

  /** Ascending neighbours make every earlier key smaller than every later one. */
  lemma {:induction false} AscendingAll(d: Items, i: nat, j: nat)
    requires IntKeys(d) && Ascending(d) && i < j < |d|
    ensures d[i].0.i < d[j].0.i
  {
    if i > 0 {
      AscendingAll(d[1..], i - 1, j - 1);
    } else if j > 1 {
      AscendingAll(d[1..], 0, j - 1);
    }
  }

  /** Insert an item into an ascending dict before the first larger key. */
  function Insert(x: (PyKey, PyValue), d: Items): (r: Items)
    requires x.0.IntKey? && IntKeys(d) && Ascending(d) && x.0 !in KeySet(d)
    ensures IntKeys(r) && Ascending(r)
    ensures |r| == |d| + 1 && (r[0] == x || (|d| > 0 && r[0] == d[0]))
    ensures KeySet(r) == KeySet(d) + {x.0}
  {
    if |d| == 0 || x.0.i < d[0].0.i then
      var r := [x] + d;
      assert r[1..] == d;
      r
    else
      assert x.0 != d[0].0;
      var rest := Insert(x, d[1..]);
      var r := [d[0]] + rest;
      assert r[1..] == rest;
      r
  }

  /** Insertion adds exactly the item x to the items. */
  lemma {:induction false} InsertMultiset(x: (PyKey, PyValue), d: Items)
    requires x.0.IntKey? && IntKeys(d) && Ascending(d) && x.0 !in KeySet(d)
    ensures multiset(Insert(x, d)) == multiset(d) + multiset{x}
  {
    if !(|d| == 0 || x.0.i < d[0].0.i) {
      var rest := Insert(x, d[1..]);
      InsertMultiset(x, d[1..]);
      assert Insert(x, d) == [d[0]] + rest;
      assert d == [d[0]] + d[1..];
    }
  }

  /** After insertion x's key reads x's value and every other key reads as before. */
  lemma {:induction false} InsertLookup(x: (PyKey, PyValue), d: Items, k: PyKey)
    requires x.0.IntKey? && IntKeys(d) && Ascending(d) && x.0 !in KeySet(d)
    ensures Lookup(Insert(x, d), k) == if k == x.0 then Some(x.1) else Lookup(d, k)
  {
    var r := Insert(x, d);
    if |d| == 0 || x.0.i < d[0].0.i {
      assert r[1..] == d;
    } else {
      var rest := Insert(x, d[1..]);
      assert r[1..] == rest;
      if k != d[0].0 {
        InsertLookup(x, d[1..], k);
      }
    }
  }

  /** Insertion of a key the dict lacks keeps keys unique. */
  lemma {:induction false} InsertUnique(x: (PyKey, PyValue), d: Items)
    requires x.0.IntKey? && IntKeys(d) && Ascending(d) && x.0 !in KeySet(d) && UniqueKeys(d)
    ensures UniqueKeys(Insert(x, d))
  {
    var r := Insert(x, d);
    if |d| == 0 || x.0.i < d[0].0.i {
      assert r[1..] == d;
    } else {
      var rest := Insert(x, d[1..]);
      assert r[1..] == rest;
      InsertUnique(x, d[1..]);
    }
  }

  /** `sorted(d.items())` for a dict with int keys (no two keys compare equal,
      so only keys are ever compared). */
  function SortByIntKey(d: Items): (r: Items)
    requires IntKeys(d) && UniqueKeys(d)
    ensures IntKeys(r) && Ascending(r) && UniqueKeys(r)
    ensures multiset(r) == multiset(d)
    ensures KeySet(r) == KeySet(d)
    ensures forall k :: Lookup(r, k) == Lookup(d, k)
  {
    if |d| == 0 then []
    else
      assert d == [d[0]] + d[1..];
      var sorted := SortByIntKey(d[1..]);
      InsertMultiset(d[0], sorted);
      InsertUnique(d[0], sorted);
      forall k ensures Lookup(Insert(d[0], sorted), k) == Lookup(d, k) {
        InsertLookup(d[0], sorted, k);
      }
      Insert(d[0], sorted)
  }
}
