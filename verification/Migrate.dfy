/**
 * `ganja config migrate`: a JSON config as a TOML document that keeps its order where order is meaning.
 * A permission table is written inline, so its entries are all key-values and none can be printed late.
 */
module Migrate {
  import opened Lists
  import opened Optional
  import opened JsonTree
  import opened Numbers
  import opened Toml

  const PERMISSION := "permission"

  /** A translation, or where in the source it refuses. */
  datatype Outcome<+T> = Done(value: T) | Refused(at: Path)

  predicate Orders(key: string) {
    key == PERMISSION
  }

  function InsertItem(items: seq<Keyed>, key: string, item: Item): seq<Keyed> {
    var i := ItemIndex(items, key);
    if i < |items| then items[i := Keyed(key, item)] else items + [Keyed(key, item)]
  }

  function ItemIndex(items: seq<Keyed>, key: string): (i: nat)
    ensures i <= |items|
    ensures i < |items| ==> items[i].key == key
    ensures forall j :: 0 <= j < i ==> items[j].key != key
  {
    FirstWhere(items, (item: Keyed) => item.key == key)
  }

  /** One value where only a value is legal. Nothing for a null; a refusal for what TOML cannot hold. */
  function InlineOf(at: Path, json: Json): Outcome<Option<Value>>
    decreases json, 0
  {
    match json
    case Null => Done(None)
    case Bool(flag) => Done(Some(VBool(flag)))
    case Number(spelled) =>
      var number := NumberValue(spelled);
      if number.None? then Refused(at) else Done(number)
    case Str(text) => Done(Some(VString(text)))
    case Array(elements) =>
      (match InlineElements(at, elements)
       case Refused(where_) => Refused(where_)
       case Done(values) => Done(Some(VArray(values))))
    case Object(entries) =>
      (match InlineEntries(at, entries)
       case Refused(where_) => Refused(where_)
       case Done(pairs) => Done(Some(VInline(pairs))))
  }

  /** A null element refuses: dropping it would shorten the list. */
  function InlineElements(at: Path, elements: seq<Json>): Outcome<seq<Value>>
    decreases elements, 0
  {
    if elements == [] then Done([])
    else
      var n := |elements| - 1;
      match InlineElements(at, elements[..n])
      case Refused(where_) => Refused(where_)
      case Done(before) =>
        match InlineOf(at + [Index(n)], elements[n])
        case Refused(where_) => Refused(where_)
        case Done(last) => if last.None? then Refused(at + [Index(n)]) else Done(before + [last.value])
  }

  /** A null property is left out. */
  function InlineEntries(at: Path, entries: seq<Entry>): Outcome<seq<Pair>>
    decreases entries, 0
  {
    if entries == [] then Done([])
    else
      var n := |entries| - 1;
      match InlineEntries(at, entries[..n])
      case Refused(where_) => Refused(where_)
      case Done(before) =>
        match InlineOf(at + [Key(entries[n].key)], entries[n].value)
        case Refused(where_) => Refused(where_)
        case Done(last) => if last.None? then Done(before) else Done(InsertPair(before, entries[n].key, last.value))
  }

  predicate AllObjects(elements: seq<Json>) {
    forall i :: 0 <= i < |elements| ==> elements[i].Object?
  }

  /** A table that holds nothing but tables needs no header; an empty one is its header. */
  predicate Headerless(items: seq<Keyed>) {
    items != [] && forall i :: 0 <= i < |items| ==> !items[i].item.IValue?
  }

  /** One value at table position. */
  function ItemOf(at: Path, key: string, json: Json): Outcome<Option<Item>>
    decreases json, 1
  {
    if json.Null? then Done(None)
    else if json.Object? then
      match BuildOf(at, json.entries, Orders(key))
      case Refused(where_) => Refused(where_)
      case Done(items) => Done(Some(ITable(Table(Headerless(items), items))))
    else if json.Array? && json.elements != [] && AllObjects(json.elements) then
      match TablesOf(at, json.elements)
      case Refused(where_) => Refused(where_)
      case Done(tables) => Done(Some(IArrayOfTables(tables)))
    else
      match InlineOf(at, json)
      case Refused(where_) => Refused(where_)
      case Done(value) => if value.None? then Done(None) else Done(Some(IValue(value.value)))
  }

  function TablesOf(at: Path, elements: seq<Json>): Outcome<seq<Table>>
    requires AllObjects(elements)
    decreases elements, 1
  {
    if elements == [] then Done([])
    else
      var n := |elements| - 1;
      match TablesOf(at, elements[..n])
      case Refused(where_) => Refused(where_)
      case Done(before) =>
        match BuildOf(at + [Index(n)], elements[n].entries, false)
        case Refused(where_) => Refused(where_)
        case Done(items) => Done(before + [Table(false, items)])
  }

  /** An object's properties as a table's items, in the order it wrote them. */
  function BuildOf(at: Path, entries: seq<Entry>, inlineChildren: bool): Outcome<seq<Keyed>>
    decreases entries, 1
  {
    if entries == [] then Done([])
    else
      var n := |entries| - 1;
      match BuildOf(at, entries[..n], inlineChildren)
      case Refused(where_) => Refused(where_)
      case Done(before) =>
        match ChildOf(at, entries[n], inlineChildren)
        case Refused(where_) => Refused(where_)
        case Done(item) => if item.None? then Done(before) else Done(InsertItem(before, entries[n].key, item.value))
  }

  function ChildOf(at: Path, entry: Entry, inlineChildren: bool): Outcome<Option<Item>>
    decreases entry, 2
  {
    var child := at + [Key(entry.key)];
    if inlineChildren then
      match InlineOf(child, entry.value)
      case Refused(where_) => Refused(where_)
      case Done(value) => if value.None? then Done(None) else Done(Some(IValue(value.value)))
    else ItemOf(child, entry.key, entry.value)
  }

  /** The document: an empty config for a source holding nothing, a refusal for one that is not an object. */
  function TranslateOf(source: Json): Outcome<seq<Keyed>> {
    match source
    case Null => Done([])
    case Object(entries) => BuildOf([], entries, false)
    case _ => Refused([])
  }

  /** What TOML can hold: whole numbers in range, doubles that parse, no null inside a list. */
  predicate Translatable(json: Json) {
    match json
    case Number(spelled) => FitsToml(spelled)
    case Array(elements) => forall i :: 0 <= i < |elements| ==> !elements[i].Null? && Translatable(elements[i])
    case Object(entries) => forall i :: 0 <= i < |entries| ==> Translatable(entries[i].value)
    case _ => true
  }

  /** The config a source means: null properties absent, a key spelled twice at its first place with its last value. */
  function Meaning(json: Json): Json
    decreases json, 0
  {
    match json
    case Number(spelled) => Number(Loaded(spelled))
    case Array(elements) => Array(seq(|elements|, i requires 0 <= i < |elements| => Meaning(elements[i])))
    case Object(entries) => Object(MeaningOf(entries))
    case _ => json
  }

  function MeaningOf(entries: seq<Entry>): seq<Entry>
    decreases entries, 0
  {
    if entries == [] then []
    else
      var last := entries[|entries| - 1];
      var before := MeaningOf(entries[..|entries| - 1]);
      if last.value.Null? then before else Insert(before, last.key, Meaning(last.value))
  }

  // Agreement: one tree up to the order of keys, except inside a permission table.

  ghost predicate Agree(back: Json, source: Json)
    decreases source, 0
  {
    match source
    case Object(entries) =>
      && back.Object? && |back.entries| == |entries| && UniqueKeys(back.entries) && UniqueKeys(entries)
      && forall i :: 0 <= i < |entries| ==>
           Find(back.entries, entries[i].key).Some?
           && Faithful(Find(back.entries, entries[i].key).value, entries[i])
    case Array(elements) =>
      && back.Array? && |back.elements| == |elements|
      && forall i :: 0 <= i < |elements| ==> Agree(back.elements[i], elements[i])
    case _ => back == source
  }

  ghost predicate Faithful(back: Json, source: Entry)
    decreases source, 1
  {
    if Orders(source.key) && source.value.Object? then back == source.value
    else Agree(back, source.value)
  }
}
