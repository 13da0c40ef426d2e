/** The translation as it runs: recursion that inserts into tables and arrays and pushes report rows. */
module MigrateRun {
  import opened Lists
  import opened Optional
  import opened JsonTree
  import opened Toml
  import opened Migrate

  /** How a top-level key was spelled in the file written. */
  datatype Spelling = Plain | Header | ArrayHeader

  function SpellingOf(item: Item): Spelling {
    match item
    case IValue(_) => Plain
    case ITable(_) => Header
    case IArrayOfTables(_) => ArrayHeader
  }

  class Report {
    var mapped: seq<(string, Spelling)>
    var skipped: seq<Path>

    constructor ()
      ensures mapped == [] && skipped == []
    {
      mapped, skipped := [], [];
    }

    method Map(key: string, spelling: Spelling)
      modifies this
      ensures mapped == old(mapped) + [(key, spelling)] && skipped == old(skipped)
    {
      mapped := mapped + [(key, spelling)];
    }

    method Skip(at: Path)
      modifies this
      ensures skipped == old(skipped) + [at] && mapped == old(mapped)
    {
      skipped := skipped + [at];
    }
  }

  /** Where the nulls are, in document order. */
  function Nulls(at: Path, json: Json): seq<Path>
    decreases json
  {
    match json
    case Null => [at]
    case Array(elements) => NullElements(at, elements)
    case Object(entries) => NullEntries(at, entries)
    case _ => []
  }

  function NullElements(at: Path, elements: seq<Json>): seq<Path>
    decreases elements
  {
    if elements == [] then []
    else
      var n := |elements| - 1;
      NullElements(at, elements[..n]) + Nulls(at + [Index(n)], elements[n])
  }

  function NullEntries(at: Path, entries: seq<Entry>): seq<Path>
    decreases entries
  {
    if entries == [] then []
    else
      var last := entries[|entries| - 1];
      NullEntries(at, entries[..|entries| - 1]) + Nulls(at + [Key(last.key)], last.value)
  }

  lemma {:induction false} ElementsStay(at: Path, elements: seq<Json>, n: nat)
    requires n <= |elements| && InlineElements(at, elements[..n]).Refused?
    ensures InlineElements(at, elements) == InlineElements(at, elements[..n])
    decreases |elements|
  {
    if n == |elements| {
      assert elements[..n] == elements;
    } else {
      assert elements[..|elements| - 1][..n] == elements[..n];
      ElementsStay(at, elements[..|elements| - 1], n);
    }
  }

  lemma {:induction false} EntriesStay(at: Path, entries: seq<Entry>, n: nat)
    requires n <= |entries| && InlineEntries(at, entries[..n]).Refused?
    ensures InlineEntries(at, entries) == InlineEntries(at, entries[..n])
    decreases |entries|
  {
    if n == |entries| {
      assert entries[..n] == entries;
    } else {
      assert entries[..|entries| - 1][..n] == entries[..n];
      EntriesStay(at, entries[..|entries| - 1], n);
    }
  }

  lemma {:induction false} BuildStays(at: Path, entries: seq<Entry>, inlineChildren: bool, n: nat)
    requires n <= |entries| && BuildOf(at, entries[..n], inlineChildren).Refused?
    ensures BuildOf(at, entries, inlineChildren) == BuildOf(at, entries[..n], inlineChildren)
    decreases |entries|
  {
    if n == |entries| {
      assert entries[..n] == entries;
    } else {
      assert entries[..|entries| - 1][..n] == entries[..n];
      BuildStays(at, entries[..|entries| - 1], inlineChildren, n);
    }
  }

  lemma {:induction false} TablesStay(at: Path, elements: seq<Json>, n: nat)
    requires AllObjects(elements) && n <= |elements| && TablesOf(at, elements[..n]).Refused?
    ensures TablesOf(at, elements) == TablesOf(at, elements[..n])
    decreases |elements|
  {
    if n == |elements| {
      assert elements[..n] == elements;
    } else {
      assert elements[..|elements| - 1][..n] == elements[..n];
      TablesStay(at, elements[..|elements| - 1], n);
    }
  }

  method Inline(at: Path, json: Json, report: Report) returns (r: Outcome<Option<Value>>)
    modifies report
    ensures r == InlineOf(at, json)
    ensures report.mapped == old(report.mapped)
    ensures r.Done? ==> report.skipped == old(report.skipped) + Nulls(at, json)
    decreases json, 0
  {
    match json {
      case Null =>
        report.Skip(at);
        return Done(None);
      case Bool(flag) => return Done(Some(VBool(flag)));
      case Number(spelled) =>
        var number := NumberValue(spelled);
        if number.None? {
          return Refused(at);
        }
        return Done(number);
      case Str(text) => return Done(Some(VString(text)));
      case Array(elements) =>
        var items := InlineList(at, elements, report);
        return if items.Refused? then Refused(items.at) else Done(Some(VArray(items.value)));
      case Object(entries) =>
        var table := InlineTable(at, entries, report);
        return if table.Refused? then Refused(table.at) else Done(Some(VInline(table.value)));
    }
  }

  method InlineList(at: Path, elements: seq<Json>, report: Report) returns (r: Outcome<seq<Value>>)
    modifies report
    ensures r == InlineElements(at, elements)
    ensures report.mapped == old(report.mapped)
    ensures r.Done? ==> report.skipped == old(report.skipped) + NullElements(at, elements)
    decreases elements, 1
  {
    var items: seq<Value> := [];
    assert elements[..0] == [];
    for n := 0 to |elements|
      invariant InlineElements(at, elements[..n]) == Done(items)
      invariant report.mapped == old(report.mapped)
      invariant report.skipped == old(report.skipped) + NullElements(at, elements[..n])
    {
      var child := at + [Index(n)];
      var element := Inline(child, elements[n], report);
      assert elements[..n + 1][..n] == elements[..n] && elements[..n + 1][n] == elements[n];
      if element.Refused? || element.value.None? {
        ElementsStay(at, elements, n + 1);
        return Refused(if element.Refused? then element.at else child);
      }
      items := items + [element.value.value];
    }
    assert elements[..|elements|] == elements;
    return Done(items);
  }

  /** One more property of an inline table. */
  lemma InlineMore(at: Path, entries: seq<Entry>, n: nat, before: seq<Pair>)
    requires n < |entries| && InlineEntries(at, entries[..n]) == Done(before)
    ensures InlineEntries(at, entries[..n + 1])
            == match InlineOf(at + [Key(entries[n].key)], entries[n].value)
               case Refused(where_) => Refused(where_)
               case Done(last) =>
                 if last.None? then Done(before) else Done(InsertPair(before, entries[n].key, last.value))
    ensures NullEntries(at, entries[..n + 1])
            == NullEntries(at, entries[..n]) + Nulls(at + [Key(entries[n].key)], entries[n].value)
  {
    assert entries[..n + 1][..n] == entries[..n] && entries[..n + 1][n] == entries[n];
  }

  method InlineTable(at: Path, entries: seq<Entry>, report: Report) returns (r: Outcome<seq<Pair>>)
    modifies report
    ensures r == InlineEntries(at, entries)
    ensures report.mapped == old(report.mapped)
    ensures r.Done? ==> report.skipped == old(report.skipped) + NullEntries(at, entries)
    decreases entries, 1
  {
    var table: seq<Pair> := [];
    assert entries[..0] == [];
    for n := 0 to |entries|
      invariant InlineEntries(at, entries[..n]) == Done(table)
      invariant report.mapped == old(report.mapped)
      invariant report.skipped == old(report.skipped) + NullEntries(at, entries[..n])
    {
      var entry := Inline(at + [Key(entries[n].key)], entries[n].value, report);
      InlineMore(at, entries, n, table);
      Regroup(old(report.skipped), NullEntries(at, entries[..n]), Nulls(at + [Key(entries[n].key)], entries[n].value));
      if entry.Refused? {
        EntriesStay(at, entries, n + 1);
        return Refused(entry.at);
      }
      if entry.value.Some? {
        table := InsertPair(table, entries[n].key, entry.value.value);
      }
    }
    assert entries[..|entries|] == entries;
    return Done(table);
  }

  method TableItem(at: Path, key: string, json: Json, report: Report) returns (r: Outcome<Option<Item>>)
    modifies report
    ensures r == ItemOf(at, key, json)
    ensures report.mapped == old(report.mapped)
    ensures r.Done? ==> report.skipped == old(report.skipped) + Nulls(at, json)
    decreases json, 1
  {
    if json.Null? {
      report.Skip(at);
      return Done(None);
    } else if json.Object? {
      var built := Build(at, json.entries, Orders(key), report);
      if built.Refused? {
        return Refused(built.at);
      }
      return Done(Some(ITable(Table(Headerless(built.value), built.value))));
    } else if json.Array? && json.elements != [] && AllObjects(json.elements) {
      var elements := json.elements;
      var tables: seq<Table> := [];
      assert elements[..0] == [];
      for n := 0 to |elements|
        invariant TablesOf(at, elements[..n]) == Done(tables)
        invariant report.mapped == old(report.mapped)
        invariant report.skipped == old(report.skipped) + NullElements(at, elements[..n])
      {
        var built := Build(at + [Index(n)], elements[n].entries, false, report);
        assert elements[..n + 1][..n] == elements[..n] && elements[..n + 1][n] == elements[n];
        Regroup(old(report.skipped), NullElements(at, elements[..n]), Nulls(at + [Index(n)], elements[n]));
        if built.Refused? {
          TablesStay(at, elements, n + 1);
          return Refused(built.at);
        }
        tables := tables + [Table(false, built.value)];
      }
      assert elements[..|elements|] == elements;
      return Done(Some(IArrayOfTables(tables)));
    } else {
      var value := Inline(at, json, report);
      if value.Refused? {
        return Refused(value.at);
      }
      return Done(if value.value.None? then None else Some(IValue(value.value.value)));
    }
  }

  method BuildChild(at: Path, entry: Entry, inlineChildren: bool, report: Report) returns (r: Outcome<Option<Item>>)
    modifies report
    ensures r == ChildOf(at, entry, inlineChildren)
    ensures report.mapped == old(report.mapped)
    ensures r.Done? ==> report.skipped == old(report.skipped) + Nulls(at + [Key(entry.key)], entry.value)
    decreases entry, 1
  {
    var child := at + [Key(entry.key)];
    if !inlineChildren {
      r := TableItem(child, entry.key, entry.value, report);
      return;
    }
    var value := Inline(child, entry.value, report);
    r := if value.Refused? then Refused(value.at)
         else Done(if value.value.None? then None else Some(IValue(value.value.value)));
  }

  /** One more entry of a table being built. */
  lemma BuildMore(at: Path, entries: seq<Entry>, inlineChildren: bool, n: nat, before: seq<Keyed>)
    requires n < |entries| && BuildOf(at, entries[..n], inlineChildren) == Done(before)
    ensures BuildOf(at, entries[..n + 1], inlineChildren)
            == match ChildOf(at, entries[n], inlineChildren)
               case Refused(where_) => Refused(where_)
               case Done(item) =>
                 if item.None? then Done(before) else Done(InsertItem(before, entries[n].key, item.value))
    ensures NullEntries(at, entries[..n + 1])
            == NullEntries(at, entries[..n]) + Nulls(at + [Key(entries[n].key)], entries[n].value)
  {
    assert entries[..n + 1][..n] == entries[..n] && entries[..n + 1][n] == entries[n];
  }

  method Build(at: Path, entries: seq<Entry>, inlineChildren: bool, report: Report) returns (r: Outcome<seq<Keyed>>)
    modifies report
    ensures r == BuildOf(at, entries, inlineChildren)
    ensures report.mapped == old(report.mapped)
    ensures r.Done? ==> report.skipped == old(report.skipped) + NullEntries(at, entries)
    decreases entries, 1
  {
    var table: seq<Keyed> := [];
    assert entries[..0] == [];
    for n := 0 to |entries|
      invariant BuildOf(at, entries[..n], inlineChildren) == Done(table)
      invariant report.mapped == old(report.mapped)
      invariant report.skipped == old(report.skipped) + NullEntries(at, entries[..n])
    {
      var entry := BuildChild(at, entries[n], inlineChildren, report);
      BuildMore(at, entries, inlineChildren, n, table);
      Regroup(old(report.skipped), NullEntries(at, entries[..n]), Nulls(at + [Key(entries[n].key)], entries[n].value));
      if entry.Refused? {
        BuildStays(at, entries, inlineChildren, n + 1);
        return Refused(entry.at);
      }
      if entry.value.Some? {
        table := InsertItem(table, entries[n].key, entry.value.value);
      }
    }
    assert entries[..|entries|] == entries;
    return Done(table);
  }

  /** The row a top-level key is mapped by, unless it is null. */
  function RowOf(entry: Entry): seq<(string, Spelling)> {
    var item := ChildOf([], entry, false);
    if item.Done? && item.value.Some? then [(entry.key, SpellingOf(item.value.value))] else []
  }

  function MappedRows(entries: seq<Entry>): seq<(string, Spelling)> {
    if entries == [] then []
    else MappedRows(entries[..|entries| - 1]) + RowOf(entries[|entries| - 1])
  }

  lemma MappedMore(entries: seq<Entry>, n: nat)
    requires n < |entries|
    ensures MappedRows(entries[..n + 1]) == MappedRows(entries[..n]) + RowOf(entries[n])
  {
    assert entries[..n + 1][..n] == entries[..n];
  }

  method TranslateEntries(entries: seq<Entry>, report: Report) returns (r: Outcome<seq<Keyed>>)
    modifies report
    ensures r == BuildOf([], entries, false)
    ensures r.Done? ==> report.mapped == old(report.mapped) + MappedRows(entries)
    ensures r.Done? ==> report.skipped == old(report.skipped) + NullEntries([], entries)
  {
    var document: seq<Keyed> := [];
    assert entries[..0] == [];
    for n := 0 to |entries|
      invariant BuildOf([], entries[..n], false) == Done(document)
      invariant report.mapped == old(report.mapped) + MappedRows(entries[..n])
      invariant report.skipped == old(report.skipped) + NullEntries([], entries[..n])
    {
      var key := entries[n].key;
      var entry := TableItem([] + [Key(key)], key, entries[n].value, report);
      assert entry == ChildOf([], entries[n], false);
      BuildMore([], entries, false, n, document);
      MappedMore(entries, n);
      Regroup(old(report.mapped), MappedRows(entries[..n]), RowOf(entries[n]));
      Regroup(old(report.skipped), NullEntries([], entries[..n]), Nulls([] + [Key(key)], entries[n].value));
      if entry.Refused? {
        BuildStays([], entries, false, n + 1);
        return Refused(entry.at);
      }
      if entry.value.Some? {
        report.Map(key, SpellingOf(entry.value.value));
        document := InsertItem(document, key, entry.value.value);
      }
    }
    assert entries[..|entries|] == entries;
    return Done(document);
  }

  /** The whole translation: every top-level key gets a mapped row, or is null and gets a skipped one. */
  method Translate(source: Json, report: Report) returns (r: Outcome<seq<Keyed>>)
    modifies report
    ensures r == TranslateOf(source)
    ensures r.Done? && source.Object? ==>
      report.mapped == old(report.mapped) + MappedRows(source.entries)
      && report.skipped == old(report.skipped) + Nulls([], source)
  {
    match source {
      case Null => return Done([]);
      case Object(entries) =>
        r := TranslateEntries(entries, report);
      case _ => return Refused([]);
    }
  }

  /** A skipped row names a null of the source, and every null that is not in a list has one. */
  lemma {:induction false} SkippedAreNulls(at: Path, json: Json, path: Path)
    requires WellFormed(json)
    ensures at + path in Nulls(at, json) <==> At(json, path) == Some(Null)
    decreases json
  {
    match json {
      case Null =>
        assert at + path == at <==> path == [];
      case Array(elements) =>
        NullElementsAt(at, elements, path);
      case Object(entries) =>
        NullEntriesAt(at, entries, path);
      case _ =>
    }
  }

  lemma {:induction false} NullElementsAt(at: Path, elements: seq<Json>, path: Path)
    requires forall i :: 0 <= i < |elements| ==> WellFormed(elements[i])
    ensures at + path in NullElements(at, elements) <==>
      path != [] && path[0].Index? && path[0].index < |elements| && At(elements[path[0].index], path[1..]) == Some(Null)
    decreases elements
  {
    if elements != [] {
      var n := |elements| - 1;
      NullElementsAt(at, elements[..n], path);
      OnlyBelow(at + [Index(n)], elements[n], at + path);
      if path != [] && path[0] == Index(n) {
        assert at + path == at + [Index(n)] + path[1..];
        SkippedAreNulls(at + [Index(n)], elements[n], path[1..]);
      } else {
        NotBelow(at, Index(n), path);
      }
    }
  }

  lemma {:induction false} NullEntriesAt(at: Path, entries: seq<Entry>, path: Path)
    requires UniqueKeys(entries) && forall i :: 0 <= i < |entries| ==> WellFormed(entries[i].value)
    ensures at + path in NullEntries(at, entries) <==> At(Object(entries), path) == Some(Null)
    decreases entries
  {
    if entries != [] {
      var n := |entries| - 1;
      var last := entries[n];
      NullEntriesAt(at, entries[..n], path);
      OnlyBelow(at + [Key(last.key)], last.value, at + path);
      assert entries == entries[..n] + [last];
      if path != [] && path[0].Key? {
        FindAppend(entries[..n], [last], path[0].key);
      }
      if path != [] && path[0] == Key(last.key) {
        assert at + path == at + [Key(last.key)] + path[1..];
        IndexOfUnique(entries, n);
        SkippedAreNulls(at + [Key(last.key)], last.value, path[1..]);
      } else {
        NotBelow(at, Key(last.key), path);
      }
    }
  }

  lemma NotBelow(at: Path, step: Step, path: Path)
    requires path == [] || path[0] != step
    ensures !(at + [step] <= at + path)
  {
    assert (at + [step])[|at|] == step;
    if path != [] {
      assert (at + path)[|at|] == path[0];
    }
  }

  /** Rows for a value lie at or below where it is. */
  lemma {:induction false} OnlyBelow(at: Path, json: Json, row: Path)
    ensures row in Nulls(at, json) ==> at <= row
    decreases json
  {
    match json {
      case Array(elements) => OnlyBelowElements(at, elements, row);
      case Object(entries) => OnlyBelowEntries(at, entries, row);
      case _ =>
    }
  }

  lemma {:induction false} OnlyBelowElements(at: Path, elements: seq<Json>, row: Path)
    ensures row in NullElements(at, elements) ==> at <= row
    decreases elements
  {
    if elements != [] {
      OnlyBelowElements(at, elements[..|elements| - 1], row);
      OnlyBelow(at + [Index(|elements| - 1)], elements[|elements| - 1], row);
    }
  }

  lemma {:induction false} OnlyBelowEntries(at: Path, entries: seq<Entry>, row: Path)
    ensures row in NullEntries(at, entries) ==> at <= row
    decreases entries
  {
    if entries != [] {
      OnlyBelowEntries(at, entries[..|entries| - 1], row);
      OnlyBelow(at + [Key(entries[|entries| - 1].key)], entries[|entries| - 1].value, row);
    }
  }
}
