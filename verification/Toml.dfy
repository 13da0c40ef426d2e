/**
 * TOML documents: the tree a writer builds, the sections it prints, and the reading of those sections.
 * A table's own key-values are printed under its header, before any table below it.
 */
module Toml {
  import opened Lists
  import opened Optional
  import opened JsonTree
  import opened Numbers

  datatype Value =
    | VBool(flag: bool)
    | VInteger(n: int)
    | VFloat(spelled: string)
    | VString(text: string)
    | VArray(elements: seq<Value>)
    | VInline(pairs: seq<Pair>)

  datatype Pair = Pair(key: string, value: Value)

  datatype Item =
    | IValue(value: Value)
    | ITable(table: Table)
    | IArrayOfTables(tables: seq<Table>)

  /** An implicit table prints no header of its own unless it has key-values to put under one. */
  datatype Table = Table(implicit: bool, items: seq<Keyed>)

  datatype Keyed = Keyed(key: string, item: Item)

  /** A JSON number as the TOML number it is, decided on the literal's own text. */
  function NumberValue(spelled: string): Option<Value> {
    if WrittenAsFraction(spelled) then
      if SpellsDouble(spelled) then Some(VFloat(spelled)) else None
    else
      var n := ParseWhole(spelled);
      if n.Some? then Some(VInteger(n.value)) else None
  }

  /** The tree a loader decodes from a value. */
  function FromValue(value: Value): Json {
    match value
    case VBool(flag) => Bool(flag)
    case VInteger(n) => Number(Decimal(n))
    case VFloat(spelled) => Number(spelled)
    case VString(text) => Str(text)
    case VArray(elements) => Array(seq(|elements|, i requires 0 <= i < |elements| => FromValue(elements[i])))
    case VInline(pairs) => Object(FromPairs(pairs))
  }

  function FromPairs(pairs: seq<Pair>): (entries: seq<Entry>)
    ensures |entries| == |pairs|
  {
    seq(|pairs|, i requires 0 <= i < |pairs| => Entry(pairs[i].key, FromValue(pairs[i].value)))
  }

  /** Puts a key-value into an inline table, at the place a key of that name already holds. */
  function InsertPair(pairs: seq<Pair>, key: string, value: Value): seq<Pair> {
    var i := PairIndex(pairs, key);
    if i < |pairs| then pairs[i := Pair(key, value)] else pairs + [Pair(key, value)]
  }

  function PairIndex(pairs: seq<Pair>, key: string): (i: nat)
    ensures i <= |pairs|
    ensures i < |pairs| ==> pairs[i].key == key
    ensures forall j :: 0 <= j < i ==> pairs[j].key != key
  {
    FirstWhere(pairs, (pair: Pair) => pair.key == key)
  }

  /** One header with the key-values under it. `repeated` is the `[[...]]` form. */
  datatype Section = Section(path: seq<string>, repeated: bool, pairs: seq<Pair>)

  function Pairs(items: seq<Keyed>): seq<Pair> {
    if items == [] then []
    else (if items[0].item.IValue? then [Pair(items[0].key, items[0].item.value)] else []) + Pairs(items[1..])
  }

  function Under(key: string, sections: seq<Section>): (r: seq<Section>)
    ensures |r| == |sections|
  {
    seq(|sections|,
        i requires 0 <= i < |sections| => Section([key] + sections[i].path, sections[i].repeated, sections[i].pairs))
  }

  /** What is printed for the tables among `items`, relative to the table holding them. */
  function Sections(items: seq<Keyed>): seq<Section>
    decreases items
  {
    if items == [] then [] else SectionsOf(items[0].key, items[0].item) + Sections(items[1..])
  }

  function SectionsOf(key: string, item: Item): seq<Section>
    decreases item
  {
    match item
    case IValue(_) => []
    case ITable(table) =>
      var pairs := Pairs(table.items);
      (if table.implicit && pairs == [] then [] else [Section([key], false, pairs)]) + Under(key, Sections(table.items))
    case IArrayOfTables(tables) => ElementSections(key, tables)
  }

  function ElementSections(key: string, tables: seq<Table>): seq<Section>
    decreases tables
  {
    if tables == [] then []
    else [Section([key], true, Pairs(tables[0].items))] + Under(key, Sections(tables[0].items))
         + ElementSections(key, tables[1..])
  }

  /** The document as it is printed. */
  function Print(items: seq<Keyed>): seq<Section> {
    [Section([], false, Pairs(items))] + Sections(items)
  }

  /** A table as it is read: whether a header defined it, and its contents in the order first met. */
  datatype Node = Node(defined: bool, slots: seq<Slot>)

  datatype Slot = Slot(key: string, content: Content)

  datatype Content = CValue(value: Value) | CTable(node: Node) | CArray(nodes: seq<Node>)

  function SlotOf(slots: seq<Slot>, key: string): (i: nat)
    ensures i <= |slots|
    ensures i < |slots| ==> slots[i].key == key
    ensures forall j :: 0 <= j < i ==> slots[j].key != key
  {
    FirstWhere(slots, (slot: Slot) => slot.key == key)
  }

  function ValueSlots(pairs: seq<Pair>): (slots: seq<Slot>)
    ensures |slots| == |pairs|
  {
    seq(|pairs|, i requires 0 <= i < |pairs| => Slot(pairs[i].key, CValue(pairs[i].value)))
  }

  predicate DistinctSlots(slots: seq<Slot>) {
    forall i, j :: 0 <= i < j < |slots| ==> slots[i].key != slots[j].key
  }

  /** Reads one section into the table it is relative to; nothing when TOML refuses it. */
  function ReadSection(node: Node, path: seq<string>, repeated: bool, pairs: seq<Pair>): Option<Node>
    decreases |path|
  {
    if path == [] then
      var slots := node.slots + ValueSlots(pairs);
      if repeated || node.defined || !DistinctSlots(slots) then None else Some(Node(true, slots))
    else
      var i := SlotOf(node.slots, path[0]);
      if |path| == 1 && repeated then
        var element := Node(true, ValueSlots(pairs));
        if !DistinctSlots(element.slots) then None
        else if i == |node.slots| then Some(Node(node.defined, node.slots + [Slot(path[0], CArray([element]))]))
        else if node.slots[i].content.CArray? then
          Some(Node(node.defined, node.slots[i := Slot(path[0], CArray(node.slots[i].content.nodes + [element]))]))
        else None
      else if i == |node.slots| then
        var child := ReadSection(Node(false, []), path[1..], repeated, pairs);
        if child.None? then None else Some(Node(node.defined, node.slots + [Slot(path[0], CTable(child.value))]))
      else match node.slots[i].content
        case CValue(_) => None
        case CTable(inner) =>
          var child := ReadSection(inner, path[1..], repeated, pairs);
          if child.None? then None else Some(Node(node.defined, node.slots[i := Slot(path[0], CTable(child.value))]))
        case CArray(nodes) =>
          if nodes == [] then None
          else
            var last := |nodes| - 1;
            var child := ReadSection(nodes[last], path[1..], repeated, pairs);
            if child.None? then None
            else Some(Node(node.defined, node.slots[i := Slot(path[0], CArray(nodes[last := child.value]))]))
  }

  function ReadAll(node: Node, sections: seq<Section>): Option<Node>
    decreases sections
  {
    if sections == [] then Some(node)
    else
      var next := ReadSection(node, sections[0].path, sections[0].repeated, sections[0].pairs);
      if next.None? then None else ReadAll(next.value, sections[1..])
  }

  /** A printed document, read. */
  function Read(sections: seq<Section>): Option<Node> {
    ReadAll(Node(false, []), sections)
  }

  function FromNode(node: Node): Json {
    Object(FromSlots(node.slots))
  }

  function FromSlots(slots: seq<Slot>): (entries: seq<Entry>)
    ensures |entries| == |slots|
  {
    seq(|slots|, i requires 0 <= i < |slots| => Entry(slots[i].key, FromContent(slots[i].content)))
  }

  function FromContent(content: Content): Json {
    match content
    case CValue(value) => FromValue(value)
    case CTable(node) => FromNode(node)
    case CArray(nodes) => Array(seq(|nodes|, i requires 0 <= i < |nodes| => FromNode(nodes[i])))
  }

  // What reading a printed tree comes to.

  function Laid(table: Table): Node {
    Node(!(table.implicit && Pairs(table.items) == []), ValueSlots(Pairs(table.items)) + TableSlots(table.items))
  }

  function LaidElement(table: Table): Node {
    Node(true, ValueSlots(Pairs(table.items)) + TableSlots(table.items))
  }

  function TableSlots(items: seq<Keyed>): seq<Slot>
    decreases items
  {
    if items == [] then [] else TableSlot(items[0].key, items[0].item) + TableSlots(items[1..])
  }

  function TableSlot(key: string, item: Item): seq<Slot>
    decreases item
  {
    match item
    case IValue(_) => []
    case ITable(table) => [Slot(key, CTable(Laid(table)))]
    case IArrayOfTables(tables) => [Slot(key, CArray(LaidAll(tables)))]
  }

  function LaidAll(tables: seq<Table>): (nodes: seq<Node>)
    ensures |nodes| == |tables|
    decreases tables
  {
    seq(|tables|, i requires 0 <= i < |tables| => LaidElement(tables[i]))
  }

  ghost predicate DistinctKeys(items: seq<Keyed>) {
    forall i, j :: 0 <= i < j < |items| ==> items[i].key != items[j].key
  }

  /** A tree that can be printed: keys distinct, arrays of tables not empty, no implicit table that would vanish. */
  ghost predicate Printable(items: seq<Keyed>)
    decreases items
  {
    DistinctKeys(items) && forall i :: 0 <= i < |items| ==> PrintableItem(items[i].item)
  }

  ghost predicate PrintableItem(item: Item)
    decreases item
  {
    match item
    case IValue(_) => true
    case ITable(table) => Printable(table.items) && (table.implicit ==> table.items != [])
    case IArrayOfTables(tables) => tables != [] && forall i :: 0 <= i < |tables| ==> Printable(tables[i].items)
  }
}
