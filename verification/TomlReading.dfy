/** Reading a printed document gives back the tree it was printed from, each table's values first. */
module TomlReading {
  import opened Lists
  import opened Optional
  import opened Toml

  ghost predicate Absent(slots: seq<Slot>, key: string) {
    SlotOf(slots, key) == |slots|
  }

  lemma AbsentMeans(slots: seq<Slot>, key: string)
    ensures Absent(slots, key) <==> forall i :: 0 <= i < |slots| ==> slots[i].key != key
  {}

  lemma {:induction false} ReadAllAppend(node: Node, a: seq<Section>, b: seq<Section>)
    ensures ReadAll(node, a + b) == (var mid := ReadAll(node, a); if mid.None? then None else ReadAll(mid.value, b))
    decreases a
  {
    if a == [] {
      assert a + b == b;
    } else {
      assert (a + b)[0] == a[0] && (a + b)[1..] == a[1..] + b;
      var next := ReadSection(node, a[0].path, a[0].repeated, a[0].pairs);
      if next.Some? {
        ReadAllAppend(next.value, a[1..], b);
      }
    }
  }

  ghost predicate Nested(sections: seq<Section>) {
    forall i :: 0 <= i < |sections| ==> sections[i].path != []
  }

  lemma {:induction false} SectionsNested(items: seq<Keyed>)
    ensures Nested(Sections(items))
    decreases items
  {
    if items != [] {
      ItemNested(items[0].key, items[0].item);
      SectionsNested(items[1..]);
    }
  }

  lemma {:induction false} ItemNested(key: string, item: Item)
    ensures Nested(SectionsOf(key, item))
    decreases item
  {
    if item.IArrayOfTables? {
      ElementsNested(key, item.tables);
    }
  }

  lemma {:induction false} ElementsNested(key: string, tables: seq<Table>)
    ensures Nested(ElementSections(key, tables))
    decreases tables
  {
    if tables != [] {
      ElementsNested(key, tables[1..]);
    }
  }

  lemma UnderFirst(key: string, sections: seq<Section>)
    requires sections != []
    ensures Under(key, sections)[0] == Section([key] + sections[0].path, sections[0].repeated, sections[0].pairs)
    ensures Under(key, sections)[1..] == Under(key, sections[1..])
  {}

  lemma SlotReplaced(slots: seq<Slot>, i: nat, content: Content)
    requires i < |slots| && SlotOf(slots, slots[i].key) == i
    ensures SlotOf(slots[i := Slot(slots[i].key, content)], slots[i].key) == i
  {
    var after := slots[i := Slot(slots[i].key, content)];
    assert after[i].key == slots[i].key;
    assert forall j :: 0 <= j < i ==> after[j] == slots[j];
  }

  /** Sections under the key of a table already met are read inside that table. */
  lemma {:induction false} IntoTable(node: Node, key: string, sections: seq<Section>)
    requires Nested(sections)
    requires var i := SlotOf(node.slots, key); i < |node.slots| && node.slots[i].content.CTable?
    ensures
      var i := SlotOf(node.slots, key);
      var inner := ReadAll(node.slots[i].content.node, sections);
      ReadAll(node, Under(key, sections))
      == if inner.None? then None else Some(Node(node.defined, node.slots[i := Slot(key, CTable(inner.value))]))
    decreases sections
  {
    var i := SlotOf(node.slots, key);
    if sections == [] {
      assert node.slots[i := Slot(key, node.slots[i].content)] == node.slots;
    } else {
      UnderFirst(key, sections);
      var first := sections[0];
      assert ([key] + first.path)[1..] == first.path;
      var child := ReadSection(node.slots[i].content.node, first.path, first.repeated, first.pairs);
      if child.Some? {
        var next := Node(node.defined, node.slots[i := Slot(key, CTable(child.value))]);
        assert ReadSection(node, [key] + first.path, first.repeated, first.pairs) == Some(next);
        SlotReplaced(node.slots, i, CTable(child.value));
        IntoTable(next, key, sections[1..]);
        var inner := ReadAll(child.value, sections[1..]);
        if inner.Some? {
          assert next.slots[i := Slot(key, CTable(inner.value))] == node.slots[i := Slot(key, CTable(inner.value))];
        }
      }
    }
  }

  /** Sections under a key not met yet make its table on the way. */
  lemma IntoNewTable(node: Node, key: string, sections: seq<Section>)
    requires Nested(sections) && sections != [] && Absent(node.slots, key)
    ensures
      var inner := ReadAll(Node(false, []), sections);
      ReadAll(node, Under(key, sections))
      == if inner.None? then None else Some(Node(node.defined, node.slots + [Slot(key, CTable(inner.value))]))
  {
    UnderFirst(key, sections);
    var first := sections[0];
    assert ([key] + first.path)[1..] == first.path;
    var child := ReadSection(Node(false, []), first.path, first.repeated, first.pairs);
    if child.Some? {
      var next := Node(node.defined, node.slots + [Slot(key, CTable(child.value))]);
      AppendedSlot(node.slots, key, CTable(child.value));
      IntoTable(next, key, sections[1..]);
      var inner := ReadAll(child.value, sections[1..]);
      if inner.Some? {
        var i := |node.slots|;
        assert next.slots[i := Slot(key, CTable(inner.value))] == node.slots + [Slot(key, CTable(inner.value))];
      }
    }
  }

  lemma AppendedSlot(slots: seq<Slot>, key: string, content: Content)
    requires Absent(slots, key)
    ensures SlotOf(slots + [Slot(key, content)], key) == |slots|
  {
    var after := slots + [Slot(key, content)];
    assert after[|slots|].key == key;
    assert forall j :: 0 <= j < |slots| ==> after[j] == slots[j];
  }

  /** Sections under the key of an array of tables are read inside its last element. */
  predicate HasElements(node: Node, key: string) {
    var i := SlotOf(node.slots, key);
    i < |node.slots| && node.slots[i].content.CArray? && node.slots[i].content.nodes != []
  }

  function LastElement(node: Node, key: string): Node
    requires HasElements(node, key)
  {
    var nodes := node.slots[SlotOf(node.slots, key)].content.nodes;
    nodes[|nodes| - 1]
  }

  /** The node with the last element of an array of tables made another. */
  function WithLast(node: Node, key: string, element: Node): Node
    requires HasElements(node, key)
  {
    var i := SlotOf(node.slots, key);
    var nodes := node.slots[i].content.nodes;
    Node(node.defined, node.slots[i := Slot(key, CArray(nodes[|nodes| - 1 := element]))])
  }

  lemma LastReplaced(node: Node, key: string, a: Node, b: Node)
    requires HasElements(node, key)
    ensures HasElements(WithLast(node, key, a), key) && LastElement(WithLast(node, key, a), key) == a
    ensures WithLast(WithLast(node, key, a), key, b) == WithLast(node, key, b)
    ensures WithLast(node, key, LastElement(node, key)) == node
  {
    var i := SlotOf(node.slots, key);
    var nodes := node.slots[i].content.nodes;
    SlotReplaced(node.slots, i, CArray(nodes[|nodes| - 1 := a]));
    assert nodes[|nodes| - 1 := nodes[|nodes| - 1]] == nodes;
    assert node.slots[i := Slot(key, node.slots[i].content)] == node.slots;
    assert nodes[|nodes| - 1 := a][|nodes| - 1 := b] == nodes[|nodes| - 1 := b];
  }

  /** A section below an array of tables goes into its last element. */
  lemma OneIntoElement(node: Node, key: string, path: seq<string>, repeated: bool, pairs: seq<Pair>)
    requires path != [] && HasElements(node, key)
    ensures var child := ReadSection(LastElement(node, key), path, repeated, pairs);
            ReadSection(node, [key] + path, repeated, pairs)
            == if child.None? then None else Some(WithLast(node, key, child.value))
  {
    assert ([key] + path)[1..] == path;
  }

  lemma {:induction false} IntoElement(node: Node, key: string, sections: seq<Section>)
    requires Nested(sections) && HasElements(node, key)
    ensures
      var inner := ReadAll(LastElement(node, key), sections);
      ReadAll(node, Under(key, sections)) == if inner.None? then None else Some(WithLast(node, key, inner.value))
    decreases sections
  {
    if sections == [] {
      LastReplaced(node, key, LastElement(node, key), LastElement(node, key));
    } else {
      var first := sections[0];
      UnderFirst(key, sections);
      OneIntoElement(node, key, first.path, first.repeated, first.pairs);
      var child := ReadSection(LastElement(node, key), first.path, first.repeated, first.pairs);
      if child.Some? {
        var inner := ReadAll(child.value, sections[1..]);
        LastReplaced(node, key, child.value, if inner.Some? then inner.value else child.value);
        IntoElement(WithLast(node, key, child.value), key, sections[1..]);
      }
    }
  }

  lemma {:induction false} PairKeys(items: seq<Keyed>, key: string)
    requires forall i :: 0 <= i < |items| && items[i].item.IValue? ==> items[i].key != key
    ensures Absent(ValueSlots(Pairs(items)), key)
  {
    if items != [] {
      PairKeys(items[1..], key);
      AbsentMeans(ValueSlots(Pairs(items[1..])), key);
      AbsentMeans(ValueSlots(Pairs(items)), key);
      var tail := Pairs(items[1..]);
      forall i | 0 <= i < |Pairs(items)| ensures Pairs(items)[i].key != key {
        if !items[0].item.IValue? {
          assert ValueSlots(tail)[i].key != key;
        } else if i > 0 {
          assert Pairs(items)[i] == tail[i - 1];
          assert ValueSlots(tail)[i - 1].key != key;
        }
      }
    }
  }

  lemma {:induction false} PairsDistinct(items: seq<Keyed>)
    requires DistinctKeys(items)
    ensures DistinctSlots(ValueSlots(Pairs(items)))
  {
    if items != [] {
      PairsDistinct(items[1..]);
      PairKeys(items[1..], items[0].key);
      AbsentMeans(ValueSlots(Pairs(items[1..])), items[0].key);
      var slots, tail := ValueSlots(Pairs(items)), ValueSlots(Pairs(items[1..]));
      if items[0].item.IValue? {
        assert slots == [Slot(items[0].key, CValue(items[0].item.value))] + tail;
      } else {
        assert slots == tail;
      }
    }
  }

  /** A table that prints no header still prints something below it. */
  lemma {:induction false} NothingVanishes(items: seq<Keyed>)
    requires Printable(items) && items != [] && Pairs(items) == []
    ensures Sections(items) != []
    decreases items
  {
    var item := items[0].item;
    assert PrintableItem(items[0].item) && !item.IValue?;
    if item.ITable? && item.table.implicit && Pairs(item.table.items) == [] {
      NothingVanishes(item.table.items);
    }
    assert |SectionsOf(items[0].key, item)| > 0;
  }

  ghost predicate Clear(slots: seq<Slot>, items: seq<Keyed>) {
    forall i :: 0 <= i < |items| && !items[i].item.IValue? ==> Absent(slots, items[i].key)
  }

  lemma {:induction false} ReadItems(node: Node, items: seq<Keyed>)
    requires Printable(items) && Clear(node.slots, items)
    ensures ReadAll(node, Sections(items)) == Some(Node(node.defined, node.slots + TableSlots(items)))
    decreases items
  {
    if items == [] {
      assert node.slots + TableSlots(items) == node.slots;
    } else {
      var key, item, rest := items[0].key, items[0].item, items[1..];
      assert PrintableItem(items[0].item);
      var slots := node.slots + TableSlot(key, item);
      var next := Node(node.defined, slots);
      assert !item.IValue? ==> Absent(node.slots, items[0].key);
      ReadItem(node, key, item);
      ClearOfRest(node.slots, items);
      ReadItems(next, rest);
      ReadAllAppend(node, SectionsOf(key, item), Sections(rest));
      Regroup(node.slots, TableSlot(key, item), TableSlots(rest));
    }
  }

  lemma ClearOfRest(slots: seq<Slot>, items: seq<Keyed>)
    requires items != [] && Printable(items) && Clear(slots, items)
    ensures Printable(items[1..]) && Clear(slots + TableSlot(items[0].key, items[0].item), items[1..])
  {
    var rest, more := items[1..], slots + TableSlot(items[0].key, items[0].item);
    forall i | 0 <= i < |rest| && !rest[i].item.IValue? ensures Absent(more, rest[i].key) {
      assert items[i + 1] == rest[i];
      assert Absent(slots, items[i + 1].key);
      AbsentMeans(slots, rest[i].key);
      AbsentMeans(more, rest[i].key);
    }
    forall i | 0 <= i < |rest| ensures PrintableItem(rest[i].item) {
      assert rest[i] == items[i + 1];
    }
  }

  lemma {:induction false} ReadItem(node: Node, key: string, item: Item)
    requires PrintableItem(item) && (!item.IValue? ==> Absent(node.slots, key))
    ensures ReadAll(node, SectionsOf(key, item)) == Some(Node(node.defined, node.slots + TableSlot(key, item)))
    decreases item
  {
    if item.IValue? {
      assert node.slots + [] == node.slots;
    } else if item.ITable? {
      ReadTable(node, key, item.table);
    } else {
      ReadElements(node, key, item.tables);
    }
  }

  lemma ClearOfValues(items: seq<Keyed>)
    requires DistinctKeys(items)
    ensures Clear(ValueSlots(Pairs(items)), items)
  {
    forall i | 0 <= i < |items| && !items[i].item.IValue? ensures Absent(ValueSlots(Pairs(items)), items[i].key) {
      PairKeys(items, items[i].key);
    }
  }

  lemma {:induction false} ReadTable(node: Node, key: string, table: Table)
    requires PrintableItem(ITable(table)) && Absent(node.slots, key)
    ensures ReadAll(node, SectionsOf(key, ITable(table)))
            == Some(Node(node.defined, node.slots + [Slot(key, CTable(Laid(table)))]))
    decreases table, 0
  {
    var pairs, below := Pairs(table.items), Sections(table.items);
    SectionsNested(table.items);
    if table.implicit && pairs == [] {
      NothingVanishes(table.items);
      IntoNewTable(node, key, below);
      ReadItems(Node(false, []), table.items);
      assert [] + Under(key, below) == Under(key, below);
      assert ValueSlots(pairs) == [];
    } else {
      var header := Section([key], false, pairs);
      var headed := Node(true, ValueSlots(pairs));
      PairsDistinct(table.items);
      assert [] + ValueSlots(pairs) == ValueSlots(pairs);
      assert [key][1..] == [];
      assert ReadSection(Node(false, []), [], false, pairs) == Some(headed);
      var next := Node(node.defined, node.slots + [Slot(key, CTable(headed))]);
      assert ReadSection(node, [key], false, pairs) == Some(next);
      AppendedSlot(node.slots, key, CTable(headed));
      IntoTable(next, key, below);
      ClearOfValues(table.items);
      ReadItems(headed, table.items);
      assert ReadAll(node, [header]) == Some(next) by {
        assert [header][1..] == [];
      }
      ReadAllAppend(node, [header], Under(key, below));
      assert next.slots[|node.slots| := Slot(key, CTable(Laid(table)))]
          == node.slots + [Slot(key, CTable(Laid(table)))];
    }
  }

  /** The first element makes the array; the others join it. */
  lemma {:induction false} ReadElements(node: Node, key: string, tables: seq<Table>)
    requires PrintableItem(IArrayOfTables(tables)) && Absent(node.slots, key)
    ensures ReadAll(node, ElementSections(key, tables))
            == Some(Node(node.defined, node.slots + TableSlot(key, IArrayOfTables(tables))))
    decreases tables, 1
  {
    var laid := LaidAll(tables);
    MoreElements(node, key, [], tables);
    assert [] + laid == laid;
  }

  function Joined(node: Node, key: string, nodes: seq<Node>): Node {
    if nodes == [] then node else Node(node.defined, node.slots + [Slot(key, CArray(nodes))])
  }

  lemma OneElement(node: Node, key: string, before: seq<Node>, table: Table)
    requires Printable(table.items) && Absent(node.slots, key)
    ensures ReadAll(Joined(node, key, before),
                    [Section([key], true, Pairs(table.items))] + Under(key, Sections(table.items)))
            == Some(Joined(node, key, before + [LaidElement(table)]))
    decreases table, 0
  {
    var pairs, below := Pairs(table.items), Sections(table.items);
    var headed := Node(true, ValueSlots(pairs));
    var start, joined := Joined(node, key, before), Joined(node, key, before + [headed]);
    PairsDistinct(table.items);
    AppendedSlot(node.slots, key, CArray(before));
    assert [] + [headed] == [headed];
    assert before != [] ==> start.slots[|node.slots| := Slot(key, CArray(before + [headed]))] == joined.slots;
    assert ReadSection(start, [key], true, pairs) == Some(joined);
    var header := [Section([key], true, pairs)];
    assert header[1..] == [];
    assert ReadAll(start, header) == Some(joined);
    ReadAllAppend(start, header, Under(key, below));
    AppendedSlot(node.slots, key, CArray(before + [headed]));
    SectionsNested(table.items);
    IntoElement(joined, key, below);
    ClearOfValues(table.items);
    ReadItems(headed, table.items);
    var done := before + [LaidElement(table)];
    assert (before + [headed])[|before| := LaidElement(table)] == done;
    assert joined.slots[|node.slots| := Slot(key, CArray(done))] == Joined(node, key, done).slots;
  }

  lemma {:induction false} MoreElements(node: Node, key: string, before: seq<Node>, tables: seq<Table>)
    requires tables != [] && (forall i :: 0 <= i < |tables| ==> Printable(tables[i].items)) && Absent(node.slots, key)
    ensures
      ReadAll(Joined(node, key, before), ElementSections(key, tables))
        == Some(Joined(node, key, before + LaidAll(tables)))
    decreases tables, 0
  {
    var rest := tables[1..];
    var start, done := Joined(node, key, before), before + [LaidElement(tables[0])];
    var first := [Section([key], true, Pairs(tables[0].items))] + Under(key, Sections(tables[0].items));
    OneElement(node, key, before, tables[0]);
    ReadAllAppend(start, first, ElementSections(key, rest));
    if rest != [] {
      MoreElements(node, key, done, rest);
    } else {
      assert done + LaidAll(rest) == done;
    }
    LaidOneMore(before, tables);
  }

  lemma LaidOneMore(before: seq<Node>, tables: seq<Table>)
    requires tables != []
    ensures before + LaidAll(tables) == before + [LaidElement(tables[0])] + LaidAll(tables[1..])
  {
    assert LaidAll(tables) == [LaidElement(tables[0])] + LaidAll(tables[1..]);
  }

  /** Printing and reading: the same tree, with every table's own values ahead of the tables below it. */
  lemma ReadPrinted(items: seq<Keyed>)
    requires Printable(items)
    ensures Read(Print(items)) == Some(LaidElement(Table(false, items)))
  {
    var pairs := Pairs(items);
    var headed := Node(true, ValueSlots(pairs));
    PairsDistinct(items);
    assert [] + ValueSlots(pairs) == ValueSlots(pairs);
    ClearOfValues(items);
    ReadItems(headed, items);
    assert Print(items)[1..] == Sections(items);
  }
}
