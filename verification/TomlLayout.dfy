/** What a printed tree reads back as, entry by entry: a table's own values first, then the tables below it. */
module TomlLayout {
  import opened JsonTree
  import opened Toml

  /** What one item reads back as. */
  function ItemJson(item: Item): Json {
    match item
    case IValue(value) => FromValue(value)
    case ITable(table) => FromNode(Laid(table))
    case IArrayOfTables(tables) =>
      Array(seq(|tables|, i requires 0 <= i < |tables| => FromNode(LaidElement(tables[i]))))
  }

  function InOrder(items: seq<Keyed>): (entries: seq<Entry>)
    ensures |entries| == |items|
  {
    seq(|items|, i requires 0 <= i < |items| => Entry(items[i].key, ItemJson(items[i].item)))
  }

  function Values(items: seq<Keyed>): seq<Entry> {
    FromSlots(ValueSlots(Pairs(items)))
  }

  function Tables(items: seq<Keyed>): seq<Entry> {
    FromSlots(TableSlots(items))
  }

  lemma LaidEntries(items: seq<Keyed>)
    ensures FromSlots(ValueSlots(Pairs(items)) + TableSlots(items)) == Values(items) + Tables(items)
  {}

  lemma TableSlotJson(key: string, item: Item)
    requires !item.IValue?
    ensures FromSlots(TableSlot(key, item)) == [Entry(key, ItemJson(item))]
  {
    if item.IArrayOfTables? {
      var nodes := LaidAll(item.tables);
      var back, meant := FromContent(CArray(nodes)).elements, ItemJson(item).elements;
      forall i | 0 <= i < |nodes| ensures back[i] == meant[i] {
        assert nodes[i] == LaidElement(item.tables[i]);
      }
      assert back == meant;
    }
  }

  lemma LaidSplit(items: seq<Keyed>)
    requires items != []
    ensures InOrder(items) == [Entry(items[0].key, ItemJson(items[0].item))] + InOrder(items[1..])
    ensures items[0].item.IValue? ==>
      Values(items) == [InOrder(items)[0]] + Values(items[1..]) && Tables(items) == Tables(items[1..])
    ensures !items[0].item.IValue? ==>
      Values(items) == Values(items[1..]) && Tables(items) == [InOrder(items)[0]] + Tables(items[1..])
  {
    if items[0].item.IValue? {
      ValueSplit(items);
    } else {
      TableSplit(items);
    }
  }

  lemma ValueSplit(items: seq<Keyed>)
    requires items != [] && items[0].item.IValue?
    ensures Values(items) == [InOrder(items)[0]] + Values(items[1..]) && Tables(items) == Tables(items[1..])
  {
    var first, rest := items[0], items[1..];
    assert ValueSlots(Pairs(items)) == [Slot(first.key, CValue(first.item.value))] + ValueSlots(Pairs(rest));
    assert TableSlots(items) == TableSlots(rest);
    assert FromContent(CValue(first.item.value)) == FromValue(first.item.value);
    assert Values(items) == [Entry(first.key, FromValue(first.item.value))] + Values(rest);
  }

  lemma TableSplit(items: seq<Keyed>)
    requires items != [] && !items[0].item.IValue?
    ensures Values(items) == Values(items[1..]) && Tables(items) == [InOrder(items)[0]] + Tables(items[1..])
  {
    var first, rest := items[0], items[1..];
    assert Pairs(items) == Pairs(rest);
    TableSlotJson(first.key, first.item);
    assert TableSlots(items) == TableSlot(first.key, first.item) + TableSlots(rest);
    assert Tables(items) == FromSlots(TableSlot(first.key, first.item)) + Tables(rest);
  }

  /** Printing values first moves entries and loses none. */
  lemma {:induction false} LaidPermutes(items: seq<Keyed>, key: string)
    requires DistinctKeys(items)
    ensures Find(Values(items) + Tables(items), key) == Find(InOrder(items), key)
    ensures |Values(items) + Tables(items)| == |items|
    decreases items
  {
    if items != [] {
      var first, rest := items[0], items[1..];
      LaidSplit(items);
      LaidPermutes(rest, key);
      NoneLike(items, key);
      var one := InOrder(items)[0];
      if first.item.IValue? {
        OneMoreValue(one, Values(rest), Tables(rest), InOrder(rest), key);
      } else {
        OneMoreTable(one, Values(rest), Tables(rest), InOrder(rest), key);
      }
    }
  }

  lemma OneMoreValue(one: Entry, values: seq<Entry>, tables: seq<Entry>, ordered: seq<Entry>, key: string)
    requires Find(values + tables, key) == Find(ordered, key)
    ensures Find([one] + values + tables, key) == Find([one] + ordered, key)
  {
    assert [one] + values + tables == [one] + (values + tables);
    FindAppend([one], values + tables, key);
    FindAppend([one], ordered, key);
  }

  lemma OneMoreTable(one: Entry, values: seq<Entry>, tables: seq<Entry>, ordered: seq<Entry>, key: string)
    requires Find(values + tables, key) == Find(ordered, key) && (key == one.key ==> Find(ordered, key).None?)
    ensures Find(values + ([one] + tables), key) == Find([one] + ordered, key)
  {
    FindAppend(values, tables, key);
    FindAppend(values, [one] + tables, key);
    FindAppend([one], tables, key);
    FindAppend([one], ordered, key);
  }

  lemma NoneLike(items: seq<Keyed>, key: string)
    requires items != [] && DistinctKeys(items)
    ensures key == items[0].key ==> Find(InOrder(items[1..]), key).None?
  {
    var rest := InOrder(items[1..]);
    forall i | 0 <= i < |rest| ensures rest[i].key != items[0].key {
      assert rest[i].key == items[1..][i].key == items[i + 1].key;
    }
  }

  lemma UniqueAround(a: seq<Entry>, entry: Entry, b: seq<Entry>)
    requires UniqueKeys(a + b) && !Has(a + b, entry.key)
    ensures UniqueKeys(a + [entry] + b)
  {
    var all, tail := a + [entry] + b, a + b;
    forall i, j | 0 <= i < j < |all| ensures all[i].key != all[j].key {
      assert i != |a| ==> all[i] == tail[if i < |a| then i else i - 1];
      assert j != |a| ==> all[j] == tail[if j < |a| then j else j - 1];
    }
  }

  lemma {:induction false} LaidUnique(items: seq<Keyed>)
    requires DistinctKeys(items)
    ensures UniqueKeys(Values(items) + Tables(items))
    decreases items
  {
    if items != [] {
      var first, rest := items[0], items[1..];
      LaidSplit(items);
      LaidUnique(rest);
      NotAmong(items);
      var one := InOrder(items)[0];
      if first.item.IValue? {
        UniqueValue(one, Values(rest), Tables(rest));
      } else {
        UniqueTable(one, Values(rest), Tables(rest));
      }
    }
  }

  lemma UniqueValue(one: Entry, values: seq<Entry>, tables: seq<Entry>)
    requires UniqueKeys(values + tables) && !Has(values + tables, one.key)
    ensures UniqueKeys([one] + values + tables)
  {
    assert [] + (values + tables) == values + tables;
    UniqueAround([], one, values + tables);
    assert [] + [one] + (values + tables) == [one] + values + tables;
  }

  lemma UniqueTable(one: Entry, values: seq<Entry>, tables: seq<Entry>)
    requires UniqueKeys(values + tables) && !Has(values + tables, one.key)
    ensures UniqueKeys(values + ([one] + tables))
  {
    UniqueAround(values, one, tables);
    assert values + [one] + tables == values + ([one] + tables);
  }

  lemma NotAmong(items: seq<Keyed>)
    requires items != [] && DistinctKeys(items)
    ensures !Has(Values(items[1..]) + Tables(items[1..]), items[0].key)
  {
    LaidPermutes(items[1..], items[0].key);
    NoneLike(items, items[0].key);
  }

  lemma {:induction false} AllValues(items: seq<Keyed>)
    requires forall i :: 0 <= i < |items| ==> items[i].item.IValue?
    ensures Values(items) == InOrder(items) && Tables(items) == []
  {
    if items != [] {
      LaidSplit(items);
      AllValues(items[1..]);
    }
  }

  /** A table of nothing but tables keeps their order. */
  lemma {:induction false} AllTables(items: seq<Keyed>)
    requires forall i :: 0 <= i < |items| ==> !items[i].item.IValue?
    ensures Values(items) == [] && Tables(items) == InOrder(items) && Pairs(items) == []
  {
    if items != [] {
      LaidSplit(items);
      AllTables(items[1..]);
    }
  }
}
