/** The file an import writes, and that reading it gives the document the report speaks of. */
module ImportWritten {
  import opened Optional
  import opened JsonTree
  import opened Toml
  import opened TomlReading
  import opened TomlLayout
  import opened Landing
  import opened Accounts
  import opened Guarding
  import opened PermissionFold
  import opened Walks
  import opened Services
  import opened Import
  import opened ImportKept

  /** A table whose every key is a value. */
  function Leaf(fields: seq<Entry>): (items: seq<Keyed>)
    ensures |items| == |PairsOf(fields)|
  {
    var pairs := PairsOf(fields);
    seq(|pairs|, i requires 0 <= i < |pairs| => Keyed(pairs[i].key, IValue(pairs[i].value)))
  }

  function Section(name: string, value: Json): seq<Keyed> {
    if value.Object? then [Keyed(name, ITable(Table(false, Leaf(value.entries))))]
    else if ValueOf(value).Some? then [Keyed(name, IValue(ValueOf(value).value))]
    else []
  }

  /** A section, one table an entry. */
  function SectionItems(entries: seq<Entry>): seq<Keyed> {
    if entries == [] then [] else Section(entries[0].key, entries[0].value) + SectionItems(entries[1..])
  }

  predicate IsSection(key: string, value: Json) {
    value.Object? && key in [AGENT, COMMAND, MCP, PROVIDER, LSP]
  }

  /** One slot of the document, as the file holds it. */
  function SlotItems(key: string, value: Json): seq<Keyed> {
    if key == PERMISSION && value.Object? then [Keyed(key, ITable(Table(false, Leaf(value.entries))))]
    else if IsSection(key, value) then [Keyed(key, ITable(Table(true, SectionItems(value.entries))))]
    else if ValueOf(value).Some? then [Keyed(key, IValue(ValueOf(value).value))]
    else []
  }

  function DocumentItems(slots: seq<Entry>): seq<Keyed> {
    if slots == [] then [] else SlotItems(slots[0].key, slots[0].value) + DocumentItems(slots[1..])
  }

  /** A document every part of which can be written where the file puts it. */
  ghost predicate KeptSlot(slot: Entry) {
    Kept(slot.value)
      && (IsSection(slot.key, slot.value) ==> KeptSection(slot.value.entries) && slot.value.entries != [])
  }

  ghost predicate KeptDocument(document: Json) {
    document.Object? && UniqueKeys(document.entries)
      && forall i :: 0 <= i < |document.entries| ==> KeptSlot(document.entries[i])
  }

  lemma RootOrderDistinct()
    ensures NoSlotTwice(ROOT_ORDER)
  {
    var o := ROOT_ORDER;
    assert |o[0]| == 5 && |o[1]| == 11 && |o[2]| == 13 && |o[3]| == 5 && |o[4]| == 5;
    assert |o[5]| == 12 && |o[6]| == 10 && |o[7]| == 5 && |o[8]| == 7 && |o[9]| == 3 && |o[10]| == 8 && |o[11]| == 3
        && |o[12]| == 8;
    assert o[0][0] == 'm' && o[3][0] == 't' && o[4][0] == 's' && o[7][0] == 'a';
    assert o[9][0] == 'm' && o[11][0] == 'l' && o[10][0] == 'p' && o[12][0] == 's';
  }

  ghost predicate KeptWrites(writes: map<string, Option<Json>>) {
    forall slot <- writes.Keys :: writes[slot].Some? ==> KeptSlot(Entry(slot, writes[slot].value))
  }

  lemma RootKeyKept(build: Build, config: Json, before: seq<Entry>, entry: Entry)
    requires WellFormed(config) && WellFormed(entry.value)
    ensures KeptWrites(RootKey(build, config, before, entry).writes)
  {
    var key, child, value := entry.key, ROOT.Child(entry.key), entry.value;
    RootOrderHolds();
    if key in TEXT_KEYS {
      TextKept(child, value);
    } else if key == INSTRUCTIONS {
      InstructionsKept(child, value);
    } else if key == PERMISSION || key == TOOLS {
      PermissionKept(ROOT, Get(config, TOOLS), Get(config, PERMISSION));
    } else if SectionNamed(key).Some? {
      SectionKept(build, SectionNamed(key).value, child, value);
    }
  }

  lemma {:induction false} RootWalkKept(build: Build, config: Json, n: nat)
    requires config.Object? && WellFormed(config) && n <= |config.entries|
    ensures KeptWrites(Walk(RootField(build, config), false, config.entries[..n]).writes)
  {
    if n > 0 {
      RootWalkKept(build, config, n - 1);
      RootKeyKept(build, config, config.entries[..n - 1], config.entries[n - 1]);
      assert config.entries[..n][..n - 1] == config.entries[..n - 1];
    }
  }

  lemma AgentsKept(build: Build, config: Json)
    requires config.Object? && WellFormed(config)
    ensures var agents := FinalAgents(build, config); agents.Some? ==> KeptSlot(Entry(AGENT, agents.value))
  {
    var writes, modes := RootWalk(build, config).writes, Modes(build, config).value;
    assert config.entries[..|config.entries|] == config.entries;
    RootWalkKept(build, config, |config.entries|);
    if Get(config, MODE).Some? {
      SectionKept(build, Agents(true), MODE_PLACE, Get(config, MODE).value);
    }
    var mine := EntriesIn(Held(writes, AGENT));
    assert AGENT in writes ==> AGENT in writes.Keys;
    InsertAllKept(mine, EntriesIn(modes));
    var all := InsertAll(mine, EntriesIn(modes));
    KeptEntries(all);
  }

  /** Everything an import builds can be written. */
  lemma ImportIsKept(build: Build, config: Json)
    requires config.Object? && WellFormed(config)
    ensures KeptDocument(ImportOf(build, config).0)
  {
    var writes := RootWalk(build, config).writes[AGENT := FinalAgents(build, config)];
    assert config.entries[..|config.entries|] == config.entries;
    RootWalkKept(build, config, |config.entries|);
    AgentsKept(build, config);
    RootOrderDistinct();
    PresentUnique(ROOT_ORDER, writes);
    var slots := Present(ROOT_ORDER, writes);
    forall i | 0 <= i < |slots| ensures KeptSlot(slots[i]) {
      assert slots[i] in slots;
      assert slots[i].key in writes.Keys;
    }
  }

  // Reading it back.

  lemma LeafReads(fields: seq<Entry>)
    requires Kept(Object(fields))
    ensures InOrder(Leaf(fields)) == Canonical(Object(fields)).entries
    ensures Printable(Leaf(fields)) && FromNode(Laid(Table(false, Leaf(fields)))) == Canonical(Object(fields))
  {
    ValueKeepsEntries(fields);
    var items := Leaf(fields);
    AllValues(items);
    LaidEntries(items);
    assert Values(items) + [] == Values(items);
  }

  lemma {:induction false} SectionReads(entries: seq<Entry>)
    requires KeptSection(entries)
    ensures var items := SectionItems(entries);
            && |items| == |entries| && Printable(items) && InOrder(items) == Canonical(Object(entries)).entries
            && forall i :: 0 <= i < |items| ==> items[i].key == entries[i].key && !items[i].item.IValue?
  {
    if entries != [] {
      SectionReads(entries[1..]);
      LeafReads(entries[0].value.entries);
      OneMoreItem(Keyed(entries[0].key, ITable(Table(false, Leaf(entries[0].value.entries)))),
                  SectionItems(entries[1..]), entries);
    }
  }

  /** One item more, for one entry more. */
  lemma OneMoreItem(first: Keyed, rest: seq<Keyed>, entries: seq<Entry>)
    requires entries != [] && UniqueKeys(entries) && |rest| == |entries| - 1
    requires first.key == entries[0].key && ItemJson(first.item) == Canonical(entries[0].value)
             && PrintableItem(first.item)
    requires Printable(rest) && InOrder(rest) == Canonical(Object(entries[1..])).entries
    requires forall i :: 0 <= i < |rest| ==> rest[i].key == entries[1..][i].key
    ensures Printable([first] + rest) && InOrder([first] + rest) == Canonical(Object(entries)).entries
    ensures forall i :: 0 <= i < |entries| ==> ([first] + rest)[i].key == entries[i].key
  {
    var items := [first] + rest;
    assert items[0] == first && forall i :: 0 < i < |items| ==> items[i] == rest[i - 1];
    assert forall i :: 0 < i < |entries| ==> entries[i] == entries[1..][i - 1];
    assert forall i :: 0 <= i < |items| ==> items[i].key == entries[i].key;
    assert Canonical(Object(entries)).entries
        == [Entry(entries[0].key, Canonical(entries[0].value))] + Canonical(Object(entries[1..])).entries;
    assert InOrder(items) == [Entry(first.key, ItemJson(first.item))] + InOrder(rest);
  }

  lemma SlotReads(slot: Entry)
    requires KeptSlot(slot)
    ensures var items := SlotItems(slot.key, slot.value);
            |items| == 1 && items[0].key == slot.key && PrintableItem(items[0].item)
              && ItemJson(items[0].item) == Canonical(slot.value)
  {
    if slot.key == PERMISSION && slot.value.Object? {
      LeafReads(slot.value.entries);
    } else if IsSection(slot.key, slot.value) {
      var items := SectionItems(slot.value.entries);
      SectionReads(slot.value.entries);
      AllTables(items);
      LaidEntries(items);
      assert [] + Tables(items) == Tables(items);
    } else {
      ValueKeepsAll(slot.value);
    }
  }

  lemma {:induction false} DocumentReads(slots: seq<Entry>)
    requires KeptDocument(Object(slots))
    ensures var items := DocumentItems(slots);
            && |items| == |slots| && Printable(items) && InOrder(items) == Canonical(Object(slots)).entries
            && forall i :: 0 <= i < |items| ==> items[i].key == slots[i].key
  {
    if slots != [] {
      DocumentReads(slots[1..]);
      SlotReads(slots[0]);
      var first := SlotItems(slots[0].key, slots[0].value);
      assert first == [first[0]];
      OneMoreItem(first[0], DocumentItems(slots[1..]), slots);
    }
  }

  /**
   * The file an import writes, read back, holds under every top-level key exactly what was built there:
   * nothing dropped, and every order kept, the permission rules' among them.
   */
  lemma WrittenReadsBack(build: Build, config: Json, key: string)
    requires config.Object? && WellFormed(config)
    ensures var document := ImportOf(build, config).0;
            var back := Read(Print(DocumentItems(document.entries)));
            back.Some? && Get(FromNode(back.value), key) == Get(Canonical(document), key)
  {
    var document := ImportOf(build, config).0;
    var items := DocumentItems(document.entries);
    ImportIsKept(build, config);
    DocumentReads(document.entries);
    ReadPrinted(items);
    LaidEntries(items);
    LaidPermutes(items, key);
  }
}
