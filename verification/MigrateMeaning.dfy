/** The migrated file, printed and read back, is the config the source meant. */
module MigrateMeaning {
  import opened Optional
  import opened JsonTree
  import opened Numbers
  import opened Toml
  import opened TomlReading
  import opened TomlLayout
  import opened Migrate
  import opened Permissions

  lemma InsertedPair(pairs: seq<Pair>, key: string, value: Value)
    ensures FromPairs(InsertPair(pairs, key, value)) == Insert(FromPairs(pairs), key, FromValue(value))
  {
    var i, j := PairIndex(pairs, key), IndexOf(FromPairs(pairs), key);
    assert forall k :: 0 <= k < |pairs| ==> FromPairs(pairs)[k].key == pairs[k].key;
    assert i < j ==> i == |pairs|;
    assert j < i ==> j == |pairs|;
  }

  /** An inline value decodes to what it was rendered from, in the same order, at every depth. */
  lemma {:induction false} InlineMeans(at: Path, json: Json)
    requires InlineOf(at, json).Done?
    ensures InlineOf(at, json).value.None? <==> json.Null?
    ensures InlineOf(at, json).value.Some? ==> FromValue(InlineOf(at, json).value.value) == Meaning(json)
    decreases json, 0
  {
    if json.Array? {
      ElementsMean(at, json.elements);
    } else if json.Object? {
      EntriesMean(at, json.entries);
    }
  }

  lemma {:induction false} ElementsMean(at: Path, elements: seq<Json>)
    requires InlineElements(at, elements).Done?
    ensures FromValue(VArray(InlineElements(at, elements).value)) == Meaning(Array(elements))
    decreases elements, 0
  {
    if elements != [] {
      var n := |elements| - 1;
      ElementsMean(at, elements[..n]);
      InlineMeans(at + [Index(n)], elements[n]);
      var before, all := InlineElements(at, elements[..n]).value, InlineElements(at, elements).value;
      var back, meant := FromValue(VArray(all)).elements, Meaning(Array(elements)).elements;
      var backBefore, meantBefore := FromValue(VArray(before)).elements, Meaning(Array(elements[..n])).elements;
      assert backBefore == meantBefore && |before| == n;
      forall i | 0 <= i < |back| ensures back[i] == meant[i] {
        if i < n {
          assert back[i] == backBefore[i] && meant[i] == meantBefore[i];
        }
      }
      assert back == meant;
    }
  }

  lemma {:induction false} EntriesMean(at: Path, entries: seq<Entry>)
    requires InlineEntries(at, entries).Done?
    ensures FromPairs(InlineEntries(at, entries).value) == MeaningOf(entries)
    decreases entries, 0
  {
    if entries != [] {
      var n := |entries| - 1;
      EntriesMean(at, entries[..n]);
      InlineMeans(at + [Key(entries[n].key)], entries[n].value);
      var last := InlineOf(at + [Key(entries[n].key)], entries[n].value).value;
      if last.Some? {
        InsertedPair(InlineEntries(at, entries[..n]).value, entries[n].key, last.value);
      }
    }
  }

  lemma {:induction false} MeaningWellFormed(json: Json)
    ensures WellFormed(Meaning(json))
    decreases json, 0
  {
    match json {
      case Number(spelled) =>
      case Array(elements) =>
        forall i | 0 <= i < |elements| ensures WellFormed(Meaning(elements[i])) {
          MeaningWellFormed(elements[i]);
        }
      case Object(entries) => MeaningOfWellFormed(entries);
      case _ =>
    }
  }

  lemma {:induction false} MeaningOfWellFormed(entries: seq<Entry>)
    ensures WellFormed(Object(MeaningOf(entries)))
    decreases entries, 0
  {
    if entries != [] {
      var last := entries[|entries| - 1];
      var before := MeaningOf(entries[..|entries| - 1]);
      MeaningOfWellFormed(entries[..|entries| - 1]);
      MeaningWellFormed(last.value);
      InsertKeepsUnique(before, last.key, Meaning(last.value));
      var after := Insert(before, last.key, Meaning(last.value));
      forall i | 0 <= i < |after| ensures WellFormed(after[i].value) {
        assert after[i].value == Meaning(last.value) || (i < |before| && after[i] == before[i]);
      }
    }
  }

  lemma {:induction false} AgreeSelf(json: Json)
    requires WellFormed(json)
    ensures Agree(json, json)
  {
    match json {
      case Array(elements) =>
        forall i | 0 <= i < |elements| ensures Agree(elements[i], elements[i]) {
          AgreeSelf(elements[i]);
        }
      case Object(entries) =>
        forall i | 0 <= i < |entries|
          ensures Find(entries, entries[i].key) == Some(entries[i].value) && Faithful(entries[i].value, entries[i])
        {
          IndexOfUnique(entries, i);
          AgreeSelf(entries[i].value);
        }
      case _ =>
    }
  }

  /** Items standing for a source object: the same keys in the same order, each with a faithful value. */
  ghost predicate Stands(items: seq<Keyed>, meant: seq<Entry>) {
    |items| == |meant|
    && forall i :: 0 <= i < |items| ==> items[i].key == meant[i].key && Faithful(ItemJson(items[i].item), meant[i])
  }

  lemma StandsLaid(items: seq<Keyed>, meant: seq<Entry>)
    requires Stands(items, meant) && DistinctKeys(items) && UniqueKeys(meant)
    ensures Agree(Object(Values(items) + Tables(items)), Object(meant))
  {
    var back := Values(items) + Tables(items);
    LaidUnique(items);
    forall i | 0 <= i < |meant|
      ensures Find(back, meant[i].key).Some? && Faithful(Find(back, meant[i].key).value, meant[i])
    {
      LaidPermutes(items, meant[i].key);
      assert UniqueKeys(InOrder(items));
      assert items[i].key == meant[i].key && InOrder(items)[i].key == meant[i].key;
      IndexOfUnique(InOrder(items), i);
    }
    LaidPermutes(items, "");
  }

  lemma StandsInserted(items: seq<Keyed>, meant: seq<Entry>, key: string, item: Item, value: Json)
    requires Stands(items, meant) && DistinctKeys(items) && Faithful(ItemJson(item), Entry(key, value))
    ensures Stands(InsertItem(items, key, item), Insert(meant, key, value))
            && DistinctKeys(InsertItem(items, key, item))
  {
    var i, j := ItemIndex(items, key), IndexOf(meant, key);
    assert forall k :: 0 <= k < |items| ==> items[k].key == meant[k].key;
    assert i < j ==> i == |items|;
    assert j < i ==> j == |meant|;
  }

  lemma PrintableInserted(items: seq<Keyed>, key: string, item: Item)
    requires Printable(items) && PrintableItem(item) && DistinctKeys(InsertItem(items, key, item))
    ensures Printable(InsertItem(items, key, item))
  {
    var after := InsertItem(items, key, item);
    forall i | 0 <= i < |after| ensures PrintableItem(after[i].item) {
      assert after[i].item == item || (i < |items| && after[i] == items[i]);
    }
  }

  predicate AllInline(items: seq<Keyed>) {
    forall i :: 0 <= i < |items| ==> items[i].item.IValue?
  }

  lemma InOrderInserted(items: seq<Keyed>, key: string, item: Item)
    requires AllInline(items) && item.IValue?
    ensures InOrder(InsertItem(items, key, item)) == Insert(InOrder(items), key, ItemJson(item))
    ensures AllInline(InsertItem(items, key, item))
  {
    var i, j := ItemIndex(items, key), IndexOf(InOrder(items), key);
    assert forall k :: 0 <= k < |items| ==> InOrder(items)[k].key == items[k].key;
    assert i < j ==> i == |items|;
    assert j < i ==> j == |items|;
  }

  /** A table renders faithfully; one whose children are inline keeps its order whole. */
  lemma {:induction false} BuildMeans(at: Path, entries: seq<Entry>, inlineChildren: bool)
    requires BuildOf(at, entries, inlineChildren).Done?
    ensures
      var items := BuildOf(at, entries, inlineChildren).value;
      && Printable(items) && Stands(items, MeaningOf(entries))
      && (inlineChildren ==> InOrder(items) == MeaningOf(entries) && AllInline(items))
    decreases entries, 1
  {
    if entries != [] {
      var n := |entries| - 1;
      var last := entries[n];
      BuildMeans(at, entries[..n], inlineChildren);
      ChildMeans(at, last, inlineChildren);
      var before := BuildOf(at, entries[..n], inlineChildren).value;
      var child := ChildOf(at, last, inlineChildren).value;
      if child.Some? {
        var meant := MeaningOf(entries[..n]);
        StandsInserted(before, meant, last.key, child.value, Meaning(last.value));
        PrintableInserted(before, last.key, child.value);
        if inlineChildren {
          InOrderInserted(before, last.key, child.value);
        }
      }
    }
  }

  lemma {:induction false} ChildMeans(at: Path, entry: Entry, inlineChildren: bool)
    requires ChildOf(at, entry, inlineChildren).Done?
    ensures
      var item := ChildOf(at, entry, inlineChildren).value;
      && (item.None? <==> entry.value.Null?)
      && (item.Some? ==>
          PrintableItem(item.value) && Faithful(ItemJson(item.value), Entry(entry.key, Meaning(entry.value))))
      && (item.Some? && inlineChildren ==> item.value.IValue? && ItemJson(item.value) == Meaning(entry.value))
    decreases entry, 2
  {
    var child := at + [Key(entry.key)];
    if inlineChildren {
      InlineMeans(child, entry.value);
      MeaningWellFormed(entry.value);
      AgreeSelf(Meaning(entry.value));
    } else {
      ItemMeans(child, entry.key, entry.value);
    }
  }

  lemma {:induction false} ItemMeans(at: Path, key: string, json: Json)
    requires ItemOf(at, key, json).Done?
    ensures
      var item := ItemOf(at, key, json).value;
      && (item.None? <==> json.Null?)
      && (item.Some? ==> PrintableItem(item.value) && Faithful(ItemJson(item.value), Entry(key, Meaning(json))))
    decreases json, 1
  {
    if json.Object? {
      TableMeans(at, key, json.entries);
    } else if json.Array? && json.elements != [] && AllObjects(json.elements) {
      TablesMean(at, json.elements);
    } else if !json.Null? {
      InlineMeans(at, json);
      MeaningWellFormed(json);
      AgreeSelf(Meaning(json));
    }
  }

  lemma {:induction false} TableMeans(at: Path, key: string, entries: seq<Entry>)
    requires BuildOf(at, entries, Orders(key)).Done?
    ensures
      var items := BuildOf(at, entries, Orders(key)).value;
      var item := ITable(Table(Headerless(items), items));
      PrintableItem(item) && Faithful(ItemJson(item), Entry(key, Object(MeaningOf(entries))))
    decreases entries, 2
  {
    BuildMeans(at, entries, Orders(key));
    MeaningOfWellFormed(entries);
    var items := BuildOf(at, entries, Orders(key)).value;
    LaidEntries(items);
    if Orders(key) {
      AllValues(items);
    } else {
      StandsLaid(items, MeaningOf(entries));
    }
  }

  lemma {:induction false} TablesMean(at: Path, elements: seq<Json>)
    requires AllObjects(elements) && TablesOf(at, elements).Done?
    ensures
      var tables := TablesOf(at, elements).value;
      && |tables| == |elements|
      && forall i :: 0 <= i < |tables| ==>
         Printable(tables[i].items) && Agree(FromNode(LaidElement(tables[i])), Meaning(elements[i]))
    decreases elements, 1
  {
    if elements != [] {
      var n := |elements| - 1;
      TablesMean(at, elements[..n]);
      BuildMeans(at + [Index(n)], elements[n].entries, false);
      ElementAgrees(at + [Index(n)], elements[n]);
    }
  }

  lemma {:induction false} ElementAgrees(at: Path, element: Json)
    requires element.Object? && BuildOf(at, element.entries, false).Done?
    ensures Agree(FromNode(LaidElement(Table(false, BuildOf(at, element.entries, false).value))), Meaning(element))
    decreases element, 2
  {
    BuildMeans(at, element.entries, false);
    MeaningOfWellFormed(element.entries);
    var items := BuildOf(at, element.entries, false).value;
    LaidEntries(items);
    StandsLaid(items, MeaningOf(element.entries));
  }

  /**
   * The migrated document, printed section by section and read back by a TOML reader, is the source's
   * config: every key path with its value, nothing more, and every permission table in its own order.
   */
  lemma MigrationKeepsMeaning(source: Json)
    requires TranslateOf(source).Done?
    ensures
      var back := Read(Print(TranslateOf(source).value));
      back.Some? && Agree(FromNode(back.value), if source.Null? then Object([]) else Meaning(source))
  {
    var items := TranslateOf(source).value;
    if source.Object? {
      BuildMeans([], source.entries, false);
      MeaningOfWellFormed(source.entries);
      StandsLaid(items, MeaningOf(source.entries));
    }
    ReadPrinted(items);
    LaidEntries(items);
  }

  /** No key path is lost, none is invented, and what each leads to agrees. */
  lemma {:induction false} AgreeAt(back: Json, source: Json, path: Path)
    requires WellFormed(source) && Agree(back, source)
    ensures At(back, path).Some? <==> At(source, path).Some?
    ensures At(back, path).Some? ==> Agree(At(back, path).value, At(source, path).value)
    decreases |path|
  {
    if path != [] {
      match path[0] {
        case Index(n) =>
          if source.Array? && n < |source.elements| {
            AgreeAt(back.elements[n], source.elements[n], path[1..]);
          }
        case Key(key) =>
          if source.Object? {
            AgreeKeys(back.entries, source.entries, key);
            var i := IndexOf(source.entries, key);
            if i < |source.entries| {
              AgreeSelf(source.entries[i].value);
              AgreeAt(Find(back.entries, key).value, source.entries[i].value, path[1..]);
            }
          }
      }
    }
  }

  lemma AgreeKeys(back: seq<Entry>, source: seq<Entry>, key: string)
    requires Agree(Object(back), Object(source))
    ensures Has(back, key) <==> Has(source, key)
  {
    var i := IndexOf(source, key);
    if i < |source| {
      assert Find(back, source[i].key).Some?;
    } else if Has(back, key) {
      TooManyKeys(back, source, key);
    }
  }

  lemma TooManyKeys(back: seq<Entry>, source: seq<Entry>, key: string)
    requires UniqueKeys(back) && UniqueKeys(source) && |back| == |source|
    requires forall i :: 0 <= i < |source| ==> Find(back, source[i].key).Some?
    requires Has(back, key)
    ensures Has(source, key)
  {
    var b, s := set i | 0 <= i < |back| :: back[i].key, set i | 0 <= i < |source| :: source[i].key;
    KeySetSize(back);
    KeySetSize(source);
    forall k | k in s ensures k in b {
      var i :| 0 <= i < |source| && source[i].key == k;
      var j := IndexOf(back, source[i].key);
      assert Find(back, source[i].key).Some? && back[j].key == k;
    }
    SubsetOfSameSize(s, b);
    assert back[IndexOf(back, key)].key in b;
    var i :| 0 <= i < |source| && source[i].key == key;
  }

  lemma SubsetOfSameSize(a: set<string>, b: set<string>)
    requires a <= b && |a| == |b|
    ensures a == b
  {
    if x :| x in b && x !in a {
      assert a <= b - {x};
      SubsetSize(a, b - {x});
    }
  }

  lemma SubsetSize(a: set<string>, b: set<string>)
    requires a <= b
    ensures |a| <= |b|
  {
    assert b == a + (b - a);
  }

  lemma {:induction false} KeySetSize(entries: seq<Entry>)
    requires UniqueKeys(entries)
    ensures |set i | 0 <= i < |entries| :: entries[i].key| == |entries|
  {
    if entries != [] {
      var n := |entries| - 1;
      KeySetSize(entries[..n]);
      var before := set i | 0 <= i < |entries[..n]| :: entries[..n][i].key;
      var all := set i | 0 <= i < |entries| :: entries[i].key;
      assert all == before + {entries[n].key} by {
        forall i | 0 <= i < n ensures entries[i].key in before {
          assert entries[..n][i] == entries[i];
        }
        assert entries[n].key in all;
      }
    }
  }

  /** A permission table anywhere in the source reads back entry for entry, in the order written. */
  lemma {:induction false} PermissionKeepsOrder(back: Json, source: Json, path: Path)
    requires WellFormed(source) && Agree(back, source)
    requires path != [] && path[|path| - 1] == Key(PERMISSION)
    requires At(source, path).Some? && At(source, path).value.Object?
    ensures At(back, path) == At(source, path)
    decreases |path|
  {
    match path[0] {
      case Index(n) =>
        PermissionKeepsOrder(back.elements[n], source.elements[n], path[1..]);
      case Key(key) =>
        var i := IndexOf(source.entries, key);
        assert source.entries[i].key == key;
        var below := Find(back.entries, source.entries[i].key);
        assert Faithful(below.value, source.entries[i]);
        if |path| > 1 && !(Orders(key) && source.entries[i].value.Object?) {
          PermissionKeepsOrder(below.value, source.entries[i].value, path[1..]);
        } else if |path| == 1 {
          assert path[1..] == [];
        }
    }
  }

  /** So every call is decided by the migrated permission table exactly as by the source's. */
  lemma MigrationKeepsDecisions(source: Json, path: Path, permission: string, pattern: string)
    requires source.Object? && TranslateOf(source).Done?
    requires path != [] && path[|path| - 1] == Key(PERMISSION)
    requires At(Meaning(source), path).Some? && At(Meaning(source), path).value.Object?
    ensures
      var read := Read(Print(TranslateOf(source).value));
      && read.Some?
      && var back := FromNode(read.value);
      && At(back, path).Some?
      && RulesOf(At(back, path).value) == RulesOf(At(Meaning(source), path).value)
      && (var rules := RulesOf(At(back, path).value);
          rules.Some? ==>
            Decide(rules.value, permission, pattern)
              == Decide(RulesOf(At(Meaning(source), path).value).value, permission, pattern))
  {
    MigrationKeepsMeaning(source);
    MeaningWellFormed(source);
    PermissionKeepsOrder(FromNode(Read(Print(TranslateOf(source).value)).value), Meaning(source), path);
  }

  /** What is refused, and nothing else: what TOML cannot hold. */
  lemma {:induction false} InlineDoneExactly(at: Path, json: Json)
    ensures InlineOf(at, json).Done? <==> Translatable(json)
    decreases json, 0
  {
    if json.Array? {
      ElementsDoneExactly(at, json.elements);
    } else if json.Object? {
      EntriesDoneExactly(at, json.entries);
    }
  }

  lemma {:induction false} ElementsDoneExactly(at: Path, elements: seq<Json>)
    ensures InlineElements(at, elements).Done? <==> Translatable(Array(elements))
    decreases elements, 0
  {
    if elements != [] {
      var n := |elements| - 1;
      ElementsDoneExactly(at, elements[..n]);
      InlineDoneExactly(at + [Index(n)], elements[n]);
      if InlineOf(at + [Index(n)], elements[n]).Done? {
        InlineMeans(at + [Index(n)], elements[n]);
      }
      assert forall i :: 0 <= i < n ==> elements[..n][i] == elements[i];
    }
  }

  lemma {:induction false} EntriesDoneExactly(at: Path, entries: seq<Entry>)
    ensures InlineEntries(at, entries).Done? <==> Translatable(Object(entries))
    decreases entries, 0
  {
    if entries != [] {
      var n := |entries| - 1;
      EntriesDoneExactly(at, entries[..n]);
      InlineDoneExactly(at + [Key(entries[n].key)], entries[n].value);
      TranslatableSplit(entries);
    }
  }

  lemma TranslatableSplit(entries: seq<Entry>)
    requires entries != []
    ensures var n := |entries| - 1;
            Translatable(Object(entries)) <==> Translatable(Object(entries[..n])) && Translatable(entries[n].value)
  {
    assert forall i :: 0 <= i < |entries| - 1 ==> entries[..|entries| - 1][i] == entries[i];
  }

  lemma {:induction false} BuildDoneExactly(at: Path, entries: seq<Entry>, inlineChildren: bool)
    ensures BuildOf(at, entries, inlineChildren).Done? <==> Translatable(Object(entries))
    decreases entries, 1
  {
    if entries != [] {
      var n := |entries| - 1;
      BuildDoneExactly(at, entries[..n], inlineChildren);
      var child := at + [Key(entries[n].key)];
      if inlineChildren {
        InlineDoneExactly(child, entries[n].value);
      } else {
        ItemDoneExactly(child, entries[n].key, entries[n].value);
      }
      assert forall i :: 0 <= i < n ==> entries[..n][i] == entries[i];
    }
  }

  lemma {:induction false} ItemDoneExactly(at: Path, key: string, json: Json)
    ensures ItemOf(at, key, json).Done? <==> Translatable(json)
    decreases json, 1
  {
    if json.Object? {
      BuildDoneExactly(at, json.entries, Orders(key));
    } else if json.Array? && json.elements != [] && AllObjects(json.elements) {
      TablesDoneExactly(at, json.elements);
    } else if !json.Null? {
      InlineDoneExactly(at, json);
    }
  }

  lemma {:induction false} TablesDoneExactly(at: Path, elements: seq<Json>)
    requires AllObjects(elements)
    ensures TablesOf(at, elements).Done? <==> Translatable(Array(elements))
    decreases elements, 1
  {
    if elements != [] {
      var n := |elements| - 1;
      TablesDoneExactly(at, elements[..n]);
      BuildDoneExactly(at + [Index(n)], elements[n].entries, false);
      assert forall i :: 0 <= i < n ==> elements[..n][i] == elements[i];
    }
  }

  /** A source is translated exactly when it is empty, or an object TOML can hold throughout. */
  lemma TranslatedExactly(source: Json)
    ensures TranslateOf(source).Done? <==> source.Null? || (source.Object? && Translatable(source))
  {
    if source.Object? {
      BuildDoneExactly([], source.entries, false);
    }
  }

  /** The entries of an object that are not null, in order. */
  function NotNull(entries: seq<Entry>): seq<Entry> {
    if entries == [] then []
    else
      var last := entries[|entries| - 1];
      NotNull(entries[..|entries| - 1]) + (if last.value.Null? then [] else [Entry(last.key, Meaning(last.value))])
  }

  /** With keys spelled once, a source means its own properties in order, minus the null ones. */
  lemma {:induction false} MeaningPrunesNulls(entries: seq<Entry>)
    requires UniqueKeys(entries)
    ensures MeaningOf(entries) == NotNull(entries)
    ensures forall i :: 0 <= i < |MeaningOf(entries)| ==>
            exists j :: 0 <= j < |entries| && entries[j].key == MeaningOf(entries)[i].key
  {
    if entries != [] {
      var n := |entries| - 1;
      MeaningPrunesNulls(entries[..n]);
      var before := MeaningOf(entries[..n]);
      assert !Has(before, entries[n].key);
      forall i | 0 <= i < |MeaningOf(entries)|
        ensures exists j :: 0 <= j < |entries| && entries[j].key == MeaningOf(entries)[i].key
      {
        if i < |before| {
          var j :| 0 <= j < n && entries[..n][j].key == before[i].key;
          assert entries[j].key == MeaningOf(entries)[i].key;
        } else {
          assert entries[n].key == MeaningOf(entries)[i].key;
        }
      }
    }
  }

  lemma OneWord(at: Path, key: string, word: string)
    ensures BuildOf(at, [Entry(key, Str(word))], false) == Done([Keyed(key, IValue(VString(word)))])
  {
    var entries := [Entry(key, Str(word))];
    assert entries[..0] == [];
    assert ItemOf(at + [Key(key)], key, Str(word)) == Done(Some(IValue(VString(word))));
    assert [] + [Keyed(key, IValue(VString(word)))] == [Keyed(key, IValue(VString(word)))];
  }

  /** What the table of `HeadersWouldReorder` is built into when its children are not kept inline. */
  lemma TableThenWord(tool: string)
    requires tool != ANY && tool != PERMISSION
    ensures
      var below := [Keyed(ANY, IValue(VString("deny")))];
      BuildOf([], [Entry(tool, Object([Entry(ANY, Str("deny"))])), Entry(ANY, Str("ask"))], false)
      == Done([Keyed(tool, ITable(Table(false, below))), Keyed(ANY, IValue(VString("ask")))])
  {
    var below := [Keyed(ANY, IValue(VString("deny")))];
    var entries := [Entry(tool, Object([Entry(ANY, Str("deny"))])), Entry(ANY, Str("ask"))];
    var first := Keyed(tool, ITable(Table(false, below)));
    OneWord([] + [Key(tool)], ANY, "deny");
    assert below[0].item.IValue?;
    assert entries[..1] == [entries[0]] && entries[..1][..0] == [];
    assert [] + [first] == [first];
    assert BuildOf([], entries[..1][..0], false) == Done([]);
    assert !Orders(tool);
    assert ItemOf([] + [Key(tool)], tool, entries[0].value) == Done(Some(first.item));
    assert ChildOf([], entries[0], false) == Done(Some(first.item));
    assert InsertItem([], tool, first.item) == [first];
    assert BuildOf([], entries[..1], false) == Done([first]);
    assert ChildOf([], entries[1], false) == Done(Some(IValue(VString("ask"))));
    assert [first] + [Keyed(ANY, IValue(VString("ask")))] == [first, Keyed(ANY, IValue(VString("ask")))];
  }

  lemma RulesOfBoth(tool: string)
    ensures
      var table, word := Entry(tool, Object([Entry(ANY, Str("deny"))])), Entry(ANY, Str("ask"));
      && RulesOf(Object([table, word])) == Some([Rule(tool, ANY, Deny), Rule(ANY, ANY, Ask)])
      && RulesOf(Object([word, table])) == Some([Rule(ANY, ANY, Ask), Rule(tool, ANY, Deny)])
  {
    var inner := [Entry(ANY, Str("deny"))];
    var table, word := Entry(tool, Object(inner)), Entry(ANY, Str("ask"));
    ActionWords();
    assert inner[1..] == [];
    var none: seq<Rule> := [];
    assert RulesOfPatterns(tool, inner[1..]) == Some(none) && RulesOfEntries([]) == Some(none);
    assert [Rule(tool, ANY, Deny)] + none == [Rule(tool, ANY, Deny)];
    assert [Rule(ANY, ANY, Ask)] + none == [Rule(ANY, ANY, Ask)];
    assert RulesOfTool(ANY, Str("ask")) == Some([Rule(ANY, ANY, Ask)]);
    assert RulesOfTool(tool, Object(inner)) == Some([Rule(tool, ANY, Deny)]);
    assert [table, word][1..] == [word] && [word, table][1..] == [table];
    assert [word][1..] == [] && [table][1..] == [];
    assert RulesOfEntries([word]) == Some([Rule(ANY, ANY, Ask)]);
    assert RulesOfEntries([table]) == Some([Rule(tool, ANY, Deny)]);
    assert [Rule(tool, ANY, Deny)] + [Rule(ANY, ANY, Ask)] == [Rule(tool, ANY, Deny), Rule(ANY, ANY, Ask)];
    assert [Rule(ANY, ANY, Ask)] + [Rule(tool, ANY, Deny)] == [Rule(ANY, ANY, Ask), Rule(tool, ANY, Deny)];
  }

  /**
   * A permission table rendered as any other table is would be read back with its bare actions first:
   * the deny written before the catch-all then comes after it and takes the call.
   */
  lemma HeadersWouldReorder(tool: string, call: string)
    requires Literal(tool) && tool != PERMISSION
    ensures
      var source := Object([Entry(tool, Object([Entry(ANY, Str("deny"))])), Entry(ANY, Str("ask"))]);
      var items := BuildOf([], source.entries, false);
      && items.Done?
      && var back := Object(Values(items.value) + Tables(items.value));
      && RulesOf(source).Some? && RulesOf(back).Some?
      && Decide(RulesOf(source).value, tool, call) == Some(Ask)
      && Decide(RulesOf(back).value, tool, call) == Some(Deny)
  {
    assert tool != ANY by {
      assert ANY[0] == '*';
    }
    TableThenWord(tool);
    RulesOfBoth(tool);
    AnyMatches(tool);
    AnyMatches(call);
    LiteralMatches(tool, tool);
    var below := [Keyed(ANY, IValue(VString("deny")))];
    var items := [Keyed(tool, ITable(Table(false, below))), Keyed(ANY, IValue(VString("ask")))];
    AllValues(below);
    LaidEntries(below);
    assert InOrder(below) == [Entry(ANY, Str("deny"))];
    LaidSplit(items);
    LaidSplit(items[1..]);
    assert items[1..][1..] == [] && Values([]) == [] && Tables([]) == [];
    assert FromNode(Laid(Table(false, below))) == Object(Values(below) + Tables(below));
    assert InOrder(items)[0] == Entry(tool, Object([Entry(ANY, Str("deny"))]));
    assert InOrder(items[1..])[0] == Entry(ANY, Str("ask"));
    assert Values(items) + Tables(items) == [Entry(ANY, Str("ask")), Entry(tool, Object([Entry(ANY, Str("deny"))]))];
  }

  // A key spelled twice.

  /** The last value spelled under a key, which is what a reader of the source keeps. */
  function LastSpelled(entries: seq<Entry>, key: string): Option<Json> {
    if entries == [] then None
    else if entries[|entries| - 1].key == key then Some(entries[|entries| - 1].value)
    else LastSpelled(entries[..|entries| - 1], key)
  }

  /** The last value spelled under a key that is not null. */
  function LastStated(entries: seq<Entry>, key: string): Option<Json> {
    if entries == [] then None
    else if entries[|entries| - 1].key == key && !entries[|entries| - 1].value.Null?
      then Some(entries[|entries| - 1].value)
    else LastStated(entries[..|entries| - 1], key)
  }

  function MeantBy(value: Option<Json>): Option<Json> {
    if value.None? || value.value.Null? then None else Some(Meaning(value.value))
  }

  /**
   * A migrated key holds the last value spelled for it that is not null. That is what a reader keeping the
   * last one would hold, except exactly where the last is null and an earlier one is not.
   */
  lemma {:induction false} NullUnsaysNothing(entries: seq<Entry>, key: string)
    ensures Find(MeaningOf(entries), key) == MeantBy(LastStated(entries, key))
    ensures Find(MeaningOf(entries), key) == MeantBy(LastSpelled(entries, key))
            <==> !(LastSpelled(entries, key) == Some(Null) && LastStated(entries, key).Some?)
  {
    LastStatedIsStated(entries, key);
    if entries != [] {
      var n := |entries| - 1;
      NullUnsaysNothing(entries[..n], key);
      if !entries[n].value.Null? {
        InsertFinds(MeaningOf(entries[..n]), entries[n].key, Meaning(entries[n].value), key);
      }
    }
  }

  lemma {:induction false} LastStatedIsStated(entries: seq<Entry>, key: string)
    ensures LastStated(entries, key) != Some(Null)
    ensures LastSpelled(entries, key).Some? && LastSpelled(entries, key) != Some(Null) ==>
            LastStated(entries, key) == LastSpelled(entries, key)
    ensures LastStated(entries, key).Some? ==> LastSpelled(entries, key).Some?
  {
    if entries != [] {
      LastStatedIsStated(entries[..|entries| - 1], key);
    }
  }

  /** So a key set and then spelled again as null keeps what it was set to. */
  lemma SetThenNulled(key: string)
    ensures MeaningOf([Entry(key, Bool(true)), Entry(key, Null)]) == [Entry(key, Bool(true))]
    ensures LastSpelled([Entry(key, Bool(true)), Entry(key, Null)], key) == Some(Null)
  {
    var both := [Entry(key, Bool(true)), Entry(key, Null)];
    assert both[..1] == [both[0]] && [both[0]][..0] == [];
    assert MeaningOf([]) == [] && Insert([], key, Bool(true)) == [Entry(key, Bool(true))];
    assert MeaningOf([both[0]]) == [Entry(key, Bool(true))];
  }

  // Where a translation refuses.

  /** What TOML cannot hold is there: a number it has no spelling for, or a null in a list. */
  predicate Unholdable(json: Json, path: Path) {
    && At(json, path).Some?
    && var there := At(json, path).value;
       (there.Number? && !FitsToml(there.spelled)) || (there.Null? && path != [] && path[|path| - 1].Index?)
  }

  /** `named` is the place of such a thing in what stands at `at`. */
  predicate Names(named: Path, at: Path, json: Json) {
    |at| <= |named| && named[..|at|] == at && Unholdable(json, named[|at|..])
  }

  lemma NamesInside(named: Path, at: Path, step: Step, json: Json, child: Json)
    requires At(json, [step]) == Some(child) && Names(named, at + [step], child)
    ensures Names(named, at, json)
  {
    var below, rest := named[|at| + 1..], named[|at|..];
    assert named[|at + [step]|..] == below;
    assert named[|at|] == (at + [step])[|at|] == step;
    assert rest == [step] + below && rest[1..] == below && [step][1..] == [];
    assert named[..|at|] == (at + [step])[..|at|];
  }

  lemma {:induction false} InlineNames(at: Path, json: Json)
    requires WellFormed(json) && InlineOf(at, json).Refused?
    ensures Names(InlineOf(at, json).at, at, json)
    decreases json, 0
  {
    match json {
      case Number(spelled) =>
        assert at[|at|..] == [] && At(json, []) == Some(json);
      case Array(elements) =>
        assert elements[..|elements|] == elements;
        ElementsName(at, elements, |elements|);
      case Object(entries) =>
        assert entries[..|entries|] == entries;
        EntriesName(at, entries, |entries|);
      case _ =>
    }
  }

  lemma {:induction false} ElementsName(at: Path, elements: seq<Json>, n: nat)
    requires n <= |elements| && WellFormed(Array(elements)) && InlineElements(at, elements[..n]).Refused?
    ensures Names(InlineElements(at, elements[..n]).at, at, Array(elements))
    decreases elements, 0, n
  {
    var m, step := n - 1, Index(n - 1);
    assert elements[..n][..m] == elements[..m];
    assert At(Array(elements), [step]) == Some(elements[m]) by {
      assert [step][1..] == [];
    }
    if InlineElements(at, elements[..m]).Refused? {
      ElementsName(at, elements, m);
    } else if InlineOf(at + [step], elements[m]).Refused? {
      InlineNames(at + [step], elements[m]);
      NamesInside(InlineOf(at + [step], elements[m]).at, at, step, Array(elements), elements[m]);
    } else {
      InlineMeans(at + [step], elements[m]);
      assert (at + [step])[|at|..] == [step] && (at + [step])[..|at|] == at;
    }
  }

  lemma {:induction false} EntriesName(at: Path, entries: seq<Entry>, n: nat)
    requires n <= |entries| && WellFormed(Object(entries)) && InlineEntries(at, entries[..n]).Refused?
    ensures Names(InlineEntries(at, entries[..n]).at, at, Object(entries))
    decreases entries, 0, n
  {
    var m := n - 1;
    var step := Key(entries[m].key);
    assert entries[..n][..m] == entries[..m];
    if InlineEntries(at, entries[..m]).Refused? {
      EntriesName(at, entries, m);
    } else {
      InlineNames(at + [step], entries[m].value);
      EntryInside(at, entries, m, InlineOf(at + [step], entries[m].value).at);
    }
  }

  lemma EntryInside(at: Path, entries: seq<Entry>, m: nat, named: Path)
    requires m < |entries| && UniqueKeys(entries) && Names(named, at + [Key(entries[m].key)], entries[m].value)
    ensures Names(named, at, Object(entries))
  {
    var step := Key(entries[m].key);
    IndexOfUnique(entries, m);
    assert [step][1..] == [] && At(Object(entries), [step]) == Some(entries[m].value);
    NamesInside(named, at, step, Object(entries), entries[m].value);
  }

  lemma {:induction false} BuildNames(at: Path, entries: seq<Entry>, inlineChildren: bool, n: nat)
    requires n <= |entries| && WellFormed(Object(entries)) && BuildOf(at, entries[..n], inlineChildren).Refused?
    ensures Names(BuildOf(at, entries[..n], inlineChildren).at, at, Object(entries))
    decreases entries, 1, n
  {
    var m := n - 1;
    var child := at + [Key(entries[m].key)];
    assert entries[..n][..m] == entries[..m];
    if BuildOf(at, entries[..m], inlineChildren).Refused? {
      BuildNames(at, entries, inlineChildren, m);
    } else if inlineChildren {
      InlineNames(child, entries[m].value);
      EntryInside(at, entries, m, InlineOf(child, entries[m].value).at);
    } else {
      ItemNames(child, entries[m].key, entries[m].value);
      EntryInside(at, entries, m, ItemOf(child, entries[m].key, entries[m].value).at);
    }
  }

  lemma {:induction false} ItemNames(at: Path, key: string, json: Json)
    requires WellFormed(json) && ItemOf(at, key, json).Refused?
    ensures Names(ItemOf(at, key, json).at, at, json)
    decreases json, 1
  {
    if json.Object? {
      assert json.entries[..|json.entries|] == json.entries;
      BuildNames(at, json.entries, Orders(key), |json.entries|);
    } else if json.Array? && json.elements != [] && AllObjects(json.elements) {
      assert json.elements[..|json.elements|] == json.elements;
      TablesName(at, json.elements, |json.elements|);
    } else {
      InlineNames(at, json);
    }
  }

  lemma {:induction false} TablesName(at: Path, elements: seq<Json>, n: nat)
    requires n <= |elements| && AllObjects(elements) && WellFormed(Array(elements))
    requires TablesOf(at, elements[..n]).Refused?
    ensures Names(TablesOf(at, elements[..n]).at, at, Array(elements))
    decreases elements, 1, n
  {
    var m, step := n - 1, Index(n - 1);
    assert elements[..n][..m] == elements[..m];
    if TablesOf(at, elements[..m]).Refused? {
      TablesName(at, elements, m);
    } else {
      var entries := elements[m].entries;
      assert entries[..|entries|] == entries;
      BuildNames(at + [step], entries, false, |entries|);
      assert [step][1..] == [] && At(Array(elements), [step]) == Some(elements[m]);
      NamesInside(BuildOf(at + [step], entries, false).at, at, step, Array(elements), elements[m]);
    }
  }

  /** A source that is refused is refused for what stands at the path named. */
  lemma RefusalNamesTheCause(source: Json)
    requires source.Object? && WellFormed(source) && TranslateOf(source).Refused?
    ensures Unholdable(source, TranslateOf(source).at)
  {
    assert source.entries[..|source.entries|] == source.entries;
    BuildNames([], source.entries, false, |source.entries|);
    assert TranslateOf(source).at[0..] == TranslateOf(source).at;
  }
}
