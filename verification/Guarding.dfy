/**
 * The values carried as they stand: what is taken out of one on the way, what the rows say about it,
 * and that the TOML written for what is left drops nothing more.
 */
module Guarding {
  import opened Optional
  import opened JsonTree
  import opened Numbers
  import opened Toml
  import opened Tokens
  import opened Landing
  import opened Accounts

  /** What came across, if anything did, and the rows written on the way. */
  datatype Carried = Carried(value: Option<Json>, rows: seq<Row>)

  /** A scalar the destination can hold. */
  predicate Holdable(json: Json) {
    match json
    case Null => false
    case Number(spelled) => FitsToml(spelled)
    case Str(text) => !OnlyToken(text)
    case _ => true
  }

  /** Nothing anywhere inside that would have to be left out. */
  ghost predicate Carriable(json: Json) {
    match json
    case Array(elements) => forall i :: 0 <= i < |elements| ==> Carriable(elements[i])
    case Object(entries) => forall i :: 0 <= i < |entries| ==> Carriable(entries[i].value)
    case _ => Holdable(json)
  }

  function GuardedOf(from: Path, json: Json): Carried
    decreases json, 1
  {
    match json
    case Null => Carried(None, [Skipped(from, NullValue)])
    case Number(spelled) =>
      if NumberValue(spelled).None? then Carried(None, [Skipped(from, OutOfRange)]) else Carried(Some(json), [])
    case Str(text) =>
      (match Guard(text)
       case None => Carried(None, [Skipped(from, OnlyAToken)])
       case Some(kept) => Carried(Some(Str(kept)), []))
    case Array(elements) =>
      var (kept, rows) := GuardedElements(from, elements);
      Carried(Some(Array(kept)), rows)
    case Object(entries) =>
      var (kept, rows) := GuardedEntries(from, entries);
      Carried(Some(Object(kept)), rows)
    case Bool(_) => Carried(Some(json), [])
  }

  function GuardedElements(from: Path, elements: seq<Json>): (seq<Json>, seq<Row>)
    decreases elements, 0
  {
    if elements == [] then ([], [])
    else
      var n := |elements| - 1;
      var (kept, rows) := GuardedElements(from, elements[..n]);
      var last := GuardedOf(from + [Index(n)], elements[n]);
      (if last.value.Some? then kept + [last.value.value] else kept, rows + last.rows)
  }

  function GuardedEntries(from: Path, entries: seq<Entry>): (seq<Entry>, seq<Row>)
    decreases entries, 0
  {
    if entries == [] then ([], [])
    else
      var n := |entries| - 1;
      var (kept, rows) := GuardedEntries(from, entries[..n]);
      var last := GuardedOf(from + [Key(entries[n].key)], entries[n].value);
      (if last.value.Some? then kept + [Entry(entries[n].key, last.value.value)] else kept, rows + last.rows)
  }

  /** What is carried is a pruning of what was read, and nothing in it has to be left out. */
  lemma {:induction false} GuardedPrunes(from: Path, json: Json)
    ensures var carried := GuardedOf(from, json).value;
            carried.Some? ==> Prunes(json, carried.value) && Carriable(carried.value)
    decreases json, 1
  {
    match json
    case Array(elements) => GuardedPrunesElements(from, elements);
    case Object(entries) => GuardedPrunesEntries(from, entries);
    case Str(text) => GuardRefusesTokens(text);
    case _ =>
  }

  lemma {:induction false} GuardedPrunesElements(from: Path, elements: seq<Json>)
    ensures var kept := GuardedElements(from, elements).0;
            PrunesElements(elements, kept) && forall i :: 0 <= i < |kept| ==> Carriable(kept[i])
    decreases elements, 0
  {
    if elements != [] {
      var n := |elements| - 1;
      GuardedPrunesElements(from, elements[..n]);
      GuardedPrunes(from + [Index(n)], elements[n]);
      var before, kept := GuardedElements(from, elements[..n]).0, GuardedElements(from, elements).0;
      assert |kept| > |before| ==> kept[..|kept| - 1] == before;
    }
  }

  lemma {:induction false} GuardedPrunesEntries(from: Path, entries: seq<Entry>)
    ensures var kept := GuardedEntries(from, entries).0;
            PrunesEntries(entries, kept) && forall i :: 0 <= i < |kept| ==> Carriable(kept[i].value)
    decreases entries, 0
  {
    if entries != [] {
      var n := |entries| - 1;
      GuardedPrunesEntries(from, entries[..n]);
      GuardedPrunes(from + [Key(entries[n].key)], entries[n].value);
      var before, kept := GuardedEntries(from, entries[..n]).0, GuardedEntries(from, entries).0;
      assert |kept| > |before| ==> kept[..|kept| - 1] == before;
    }
  }

  /** A value is carried whole and without a word exactly when there was nothing to leave out. */
  lemma {:induction false} GuardedWholeExactly(from: Path, json: Json)
    ensures Carriable(json) <==> GuardedOf(from, json).rows == []
    ensures Carriable(json) ==> GuardedOf(from, json).value == Some(json)
    decreases json, 1
  {
    match json
    case Array(elements) => GuardedWholeElements(from, elements);
    case Object(entries) => GuardedWholeEntries(from, entries);
    case Str(text) => GuardRefusesTokens(text);
    case _ =>
  }

  lemma CarriableSplit(elements: seq<Json>)
    requires elements != []
    ensures var n := |elements| - 1;
            && elements == elements[..n] + [elements[n]]
            && (Carriable(Array(elements)) <==> Carriable(Array(elements[..n])) && Carriable(elements[n]))
  {
    assert forall i :: 0 <= i < |elements| - 1 ==> elements[..|elements| - 1][i] == elements[i];
  }

  lemma {:induction false} GuardedWholeElements(from: Path, elements: seq<Json>)
    ensures Carriable(Array(elements)) <==> GuardedElements(from, elements).1 == []
    ensures Carriable(Array(elements)) ==> GuardedElements(from, elements).0 == elements
    decreases elements, 0
  {
    if elements != [] {
      var n := |elements| - 1;
      GuardedWholeElements(from, elements[..n]);
      GuardedWholeExactly(from + [Index(n)], elements[n]);
      CarriableSplit(elements);
    }
  }

  lemma {:induction false} GuardedWholeEntries(from: Path, entries: seq<Entry>)
    ensures Carriable(Object(entries)) <==> GuardedEntries(from, entries).1 == []
    ensures Carriable(Object(entries)) ==> GuardedEntries(from, entries).0 == entries
    decreases entries, 0
  {
    if entries != [] {
      var n := |entries| - 1;
      GuardedWholeEntries(from, entries[..n]);
      GuardedWholeExactly(from + [Key(entries[n].key)], entries[n].value);
      assert entries == entries[..n] + [entries[n]];
      assert Carriable(Object(entries)) <==> Carriable(Object(entries[..n])) && Carriable(entries[n].value);
    }
  }

  /** Guarding twice is guarding once: the second pass changes nothing and has nothing to say. */
  lemma GuardedOnce(from: Path, again: Path, json: Json)
    requires GuardedOf(from, json).value.Some?
    ensures GuardedOf(again, GuardedOf(from, json).value.value) == Carried(GuardedOf(from, json).value, [])
  {
    GuardedPrunes(from, json);
    GuardedWholeExactly(again, GuardedOf(from, json).value.value);
  }

  function Leaves(json: Json): nat
    decreases json, 1
  {
    match json
    case Array(elements) => LeavesOfElements(elements)
    case Object(entries) => LeavesOfEntries(entries)
    case _ => 1
  }

  function LeavesOfElements(elements: seq<Json>): nat
    decreases elements, 0
  {
    if elements == [] then 0
    else LeavesOfElements(elements[..|elements| - 1]) + Leaves(elements[|elements| - 1])
  }

  function LeavesOfEntries(entries: seq<Entry>): nat
    decreases entries, 0
  {
    if entries == [] then 0
    else LeavesOfEntries(entries[..|entries| - 1]) + Leaves(entries[|entries| - 1].value)
  }

  function CarriedLeaves(carried: Option<Json>): nat {
    if carried.Some? then Leaves(carried.value) else 0
  }

  /** Every scalar is either carried or has a row of its own. */
  lemma {:induction false} GuardedConserves(from: Path, json: Json)
    ensures var carried := GuardedOf(from, json);
            Leaves(json) == CarriedLeaves(carried.value) + |carried.rows|
    decreases json, 1
  {
    match json
    case Array(elements) => GuardedConservesElements(from, elements);
    case Object(entries) => GuardedConservesEntries(from, entries);
    case _ =>
  }

  lemma {:induction false} GuardedConservesElements(from: Path, elements: seq<Json>)
    ensures var (kept, rows) := GuardedElements(from, elements);
            LeavesOfElements(elements) == LeavesOfElements(kept) + |rows|
    decreases elements, 0
  {
    if elements != [] {
      var n := |elements| - 1;
      GuardedConservesElements(from, elements[..n]);
      GuardedConserves(from + [Index(n)], elements[n]);
      var before, kept := GuardedElements(from, elements[..n]).0, GuardedElements(from, elements).0;
      assert |kept| > |before| ==> kept[..|kept| - 1] == before;
    }
  }

  lemma {:induction false} GuardedConservesEntries(from: Path, entries: seq<Entry>)
    ensures var (kept, rows) := GuardedEntries(from, entries);
            LeavesOfEntries(entries) == LeavesOfEntries(kept) + |rows|
    decreases entries, 0
  {
    if entries != [] {
      var n := |entries| - 1;
      GuardedConservesEntries(from, entries[..n]);
      GuardedConserves(from + [Key(entries[n].key)], entries[n].value);
      var before, kept := GuardedEntries(from, entries[..n]).0, GuardedEntries(from, entries).0;
      assert |kept| > |before| ==> kept[..|kept| - 1] == before;
    }
  }

  /** A row that says why a scalar of `json` could not be carried. */
  ghost predicate Explains(row: Row, from: Path, json: Json) {
    && Beneath(from, row.from) && row.Skipped?
    && var leaf := At(json, row.from[|from|..]);
       leaf.Some? && Scalar(leaf.value) && !Holdable(leaf.value)
       && row.reason == match leaf.value
                        case Null => NullValue
                        case Number(_) => OutOfRange
                        case _ => OnlyAToken
  }

  lemma ExplainsInside(row: Row, from: Path, step: Step, json: Json, child: Json)
    requires At(json, [step]) == Some(child)
    requires Explains(row, from + [step], child)
    ensures Explains(row, from, json)
  {
    Below(from, step, row.from);
    assert At(child, []) == Some(child);
  }

  lemma ScalarExplained(from: Path, json: Json)
    requires Scalar(json)
    ensures forall row <- GuardedOf(from, json).rows :: Explains(row, from, json)
  {
    assert from[|from|..] == [];
    if json.Str? {
      GuardRefusesTokens(json.text);
    }
  }

  /** Each row names one scalar that could not be held, with the reason that is true of it. */
  lemma {:induction false} GuardedRowsExplain(from: Path, json: Json)
    requires WellFormed(json)
    ensures forall i :: 0 <= i < |GuardedOf(from, json).rows| ==> Explains(GuardedOf(from, json).rows[i], from, json)
    decreases json, 1
  {
    match json
    case Array(elements) => GuardedElementsExplain(from, elements, |elements|);
      assert elements[..|elements|] == elements;
    case Object(entries) => GuardedEntriesExplain(from, entries, |entries|);
      assert entries[..|entries|] == entries;
    case _ => ScalarExplained(from, json);
  }

  lemma {:induction false} GuardedElementsExplain(from: Path, elements: seq<Json>, n: nat)
    requires WellFormed(Array(elements)) && n <= |elements|
    ensures forall i :: 0 <= i < |GuardedElements(from, elements[..n]).1| ==>
              Explains(GuardedElements(from, elements[..n]).1[i], from, Array(elements))
    decreases elements, 0, n
  {
    if n > 0 {
      GuardedElementsExplain(from, elements, n - 1);
      var last := GuardedOf(from + [Index(n - 1)], elements[n - 1]).rows;
      GuardedRowsExplain(from + [Index(n - 1)], elements[n - 1]);
      assert elements[..n][..n - 1] == elements[..n - 1];
      forall i | 0 <= i < |last| ensures Explains(last[i], from, Array(elements)) {
        ExplainsInside(last[i], from, Index(n - 1), Array(elements), elements[n - 1]);
      }
    }
  }

  lemma {:induction false} GuardedEntriesExplain(from: Path, entries: seq<Entry>, n: nat)
    requires WellFormed(Object(entries)) && n <= |entries|
    ensures forall i :: 0 <= i < |GuardedEntries(from, entries[..n]).1| ==>
              Explains(GuardedEntries(from, entries[..n]).1[i], from, Object(entries))
    decreases entries, 0, n
  {
    if n > 0 {
      GuardedEntriesExplain(from, entries, n - 1);
      var last := GuardedOf(from + [Key(entries[n - 1].key)], entries[n - 1].value).rows;
      GuardedRowsExplain(from + [Key(entries[n - 1].key)], entries[n - 1].value);
      assert entries[..n][..n - 1] == entries[..n - 1];
      IndexOfUnique(entries, n - 1);
      forall i | 0 <= i < |last| ensures Explains(last[i], from, Object(entries)) {
        ExplainsInside(last[i], from, Key(entries[n - 1].key), Object(entries), entries[n - 1].value);
      }
    }
  }

  lemma {:induction false} NamedAmongElements(from: Path, elements: seq<Json>, n: nat, i: nat, path: Path)
    requires i < n <= |elements| && Named(GuardedOf(from + [Index(i)], elements[i]).rows, path)
    ensures Named(GuardedElements(from, elements[..n]).1, path)
    decreases n
  {
    assert elements[..n][..n - 1] == elements[..n - 1];
    var before, last := GuardedElements(from, elements[..n - 1]).1,
      GuardedOf(from + [Index(n - 1)], elements[n - 1]).rows;
    if i < n - 1 {
      NamedAmongElements(from, elements, n - 1, i, path);
      NamedMore(before, last, path);
    } else {
      NamedMore(last, before, path);
    }
  }

  lemma {:induction false} NamedAmongEntries(from: Path, entries: seq<Entry>, n: nat, i: nat, path: Path)
    requires i < n <= |entries| && Named(GuardedOf(from + [Key(entries[i].key)], entries[i].value).rows, path)
    ensures Named(GuardedEntries(from, entries[..n]).1, path)
    decreases n
  {
    assert entries[..n][..n - 1] == entries[..n - 1];
    var before, last := GuardedEntries(from, entries[..n - 1]).1,
      GuardedOf(from + [Key(entries[n - 1].key)], entries[n - 1].value).rows;
    if i < n - 1 {
      NamedAmongEntries(from, entries, n - 1, i, path);
      NamedMore(before, last, path);
    } else {
      NamedMore(last, before, path);
    }
  }

  /** A scalar has a row of its own exactly when the destination cannot hold it. */
  lemma {:induction false} GuardedNamesExactly(from: Path, json: Json, path: Path)
    requires WellFormed(json) && At(json, path).Some? && Scalar(At(json, path).value)
    ensures Named(GuardedOf(from, json).rows, from + path) <==> !Holdable(At(json, path).value)
  {
    if !Holdable(At(json, path).value) {
      LostIsNamed(from, json, path);
    }
    if Named(GuardedOf(from, json).rows, from + path) {
      var rows := GuardedOf(from, json).rows;
      var i :| 0 <= i < |rows| && rows[i].from == from + path;
      GuardedRowsExplain(from, json);
      assert Explains(rows[i], from, json) && rows[i].from[|from|..] == path;
    }
  }

  lemma {:induction false} LostIsNamed(from: Path, json: Json, path: Path)
    requires WellFormed(json) && At(json, path).Some? && Scalar(At(json, path).value) && !Holdable(At(json, path).value)
    ensures Named(GuardedOf(from, json).rows, from + path)
    decreases |path|
  {
    if path == [] {
      if json.Str? {
        GuardRefusesTokens(json.text);
      }
      assert GuardedOf(from, json).rows[0].from == from + path;
    } else {
      assert from + [path[0]] + path[1..] == from + path;
      match path[0]
      case Key(key) =>
        var i := IndexOf(json.entries, key);
        LostIsNamed(from + [path[0]], json.entries[i].value, path[1..]);
        assert json.entries[..|json.entries|] == json.entries;
        NamedAmongEntries(from, json.entries, |json.entries|, i, from + path);
      case Index(i) =>
        LostIsNamed(from + [path[0]], json.elements[i], path[1..]);
        assert json.elements[..|json.elements|] == json.elements;
        NamedAmongElements(from, json.elements, |json.elements|, i, from + path);
    }
  }

  lemma {:induction false} GuardedKeys(from: Path, entries: seq<Entry>)
    requires UniqueKeys(entries)
    ensures var kept := GuardedEntries(from, entries).0;
            UniqueKeys(kept)
              && forall i :: 0 <= i < |kept| ==> exists j :: 0 <= j < |entries| && entries[j].key == kept[i].key
  {
    if entries != [] {
      var n := |entries| - 1;
      GuardedKeys(from, entries[..n]);
      var before, kept := GuardedEntries(from, entries[..n]).0, GuardedEntries(from, entries).0;
      forall i | 0 <= i < |kept| ensures exists j :: 0 <= j < |entries| && entries[j].key == kept[i].key {
        if i < |before| {
          var j :| 0 <= j < n && entries[..n][j].key == before[i].key;
          assert entries[j].key == kept[i].key;
        } else {
          assert entries[n].key == kept[i].key;
        }
      }
    }
  }

  /** The keys of what is carried stay distinct at every depth. */
  lemma {:induction false} GuardedWellFormed(from: Path, json: Json)
    requires WellFormed(json)
    ensures GuardedOf(from, json).value.Some? ==> WellFormed(GuardedOf(from, json).value.value)
    decreases json, 1
  {
    match json
    case Array(elements) => GuardedElementsWellFormed(from, elements);
    case Object(entries) => GuardedEntriesWellFormed(from, entries); GuardedKeys(from, entries);
    case _ =>
  }

  lemma {:induction false} GuardedElementsWellFormed(from: Path, elements: seq<Json>)
    requires forall i :: 0 <= i < |elements| ==> WellFormed(elements[i])
    ensures forall kept <- GuardedElements(from, elements).0 :: WellFormed(kept)
    decreases elements, 0
  {
    if elements != [] {
      GuardedElementsWellFormed(from, elements[..|elements| - 1]);
      GuardedWellFormed(from + [Index(|elements| - 1)], elements[|elements| - 1]);
    }
  }

  lemma {:induction false} GuardedEntriesWellFormed(from: Path, entries: seq<Entry>)
    requires forall i :: 0 <= i < |entries| ==> WellFormed(entries[i].value)
    ensures forall kept <- GuardedEntries(from, entries).0 :: WellFormed(kept.value)
    decreases entries, 0
  {
    if entries != [] {
      var last := entries[|entries| - 1];
      GuardedEntriesWellFormed(from, entries[..|entries| - 1]);
      GuardedWellFormed(from + [Key(last.key)], last.value);
    }
  }

  // The TOML a carried value becomes.

  /** One value as TOML; nothing for what TOML cannot spell, which is left out wherever it sits. */
  function ValueOf(json: Json): Option<Value>
    decreases json, 1
  {
    match json
    case Null => None
    case Bool(flag) => Some(VBool(flag))
    case Number(spelled) => NumberValue(spelled)
    case Str(text) => Some(VString(text))
    case Array(elements) => Some(VArray(ValuesOf(elements)))
    case Object(entries) => Some(VInline(PairsOf(entries)))
  }

  function ValuesOf(elements: seq<Json>): seq<Value>
    decreases elements, 0
  {
    if elements == [] then []
    else
      var last := ValueOf(elements[|elements| - 1]);
      ValuesOf(elements[..|elements| - 1]) + if last.Some? then [last.value] else []
  }

  function PairsOf(entries: seq<Entry>): seq<Pair>
    decreases entries, 0
  {
    if entries == [] then []
    else
      var last := ValueOf(entries[|entries| - 1].value);
      var before := PairsOf(entries[..|entries| - 1]);
      if last.Some? then InsertPair(before, entries[|entries| - 1].key, last.value) else before
  }

  /** The same tree with each whole number in its canonical spelling, which is how a loader sees it. */
  function Canonical(json: Json): Json {
    match json
    case Number(spelled) => Number(Loaded(spelled))
    case Array(elements) => Array(seq(|elements|, i requires 0 <= i < |elements| => Canonical(elements[i])))
    case Object(entries) =>
      Object(seq(|entries|, i requires 0 <= i < |entries| => Entry(entries[i].key, Canonical(entries[i].value))))
    case _ => json
  }

  /** What a guarded value becomes in TOML reads back as that value, with nothing dropped at any depth. */
  lemma {:induction false} ValueKeepsAll(json: Json)
    requires Carriable(json) && WellFormed(json)
    ensures ValueOf(json).Some? && FromValue(ValueOf(json).value) == Canonical(json)
    decreases json, 1
  {
    match json
    case Array(elements) => ValueKeepsElements(elements);
    case Object(entries) => ValueKeepsEntries(entries);
    case _ =>
  }

  lemma {:induction false} ValueKeepsElements(elements: seq<Json>)
    requires Carriable(Array(elements)) && WellFormed(Array(elements))
    ensures |ValuesOf(elements)| == |elements|
    ensures forall i :: 0 <= i < |elements| ==> FromValue(ValuesOf(elements)[i]) == Canonical(elements[i])
    decreases elements, 0
  {
    if elements != [] {
      var n := |elements| - 1;
      assert Carriable(Array(elements[..n])) && WellFormed(Array(elements[..n]));
      ValueKeepsElements(elements[..n]);
      ValueKeepsAll(elements[n]);
    }
  }

  lemma {:induction false} ValueKeepsEntries(entries: seq<Entry>)
    requires Carriable(Object(entries)) && WellFormed(Object(entries))
    ensures |PairsOf(entries)| == |entries|
    ensures forall i :: 0 <= i < |entries| ==>
              PairsOf(entries)[i].key == entries[i].key
                && FromValue(PairsOf(entries)[i].value) == Canonical(entries[i].value)
    decreases entries, 0
  {
    if entries != [] {
      var n := |entries| - 1;
      assert Carriable(Object(entries[..n])) && WellFormed(Object(entries[..n]));
      ValueKeepsEntries(entries[..n]);
      ValueKeepsAll(entries[n].value);
    }
  }
}
