/** Everything an import builds can be written: no null, no number TOML cannot hold, no key twice. */
module ImportKept {
  import opened Optional
  import opened JsonTree
  import opened Numbers
  import opened Tokens
  import opened Toml
  import opened Landing
  import opened Accounts
  import opened Guarding
  import opened PermissionFold
  import opened Walks
  import opened Fields
  import opened Entries
  import opened Services
  import opened Import

  ghost predicate Kept(json: Json) {
    Carriable(json) && WellFormed(json)
  }

  ghost predicate KeptIfAny(value: Option<Json>) {
    value.Some? ==> Kept(value.value)
  }

  ghost predicate KeptEffect(effect: Effect) {
    forall slot <- effect.writes.Keys :: KeptIfAny(effect.writes[slot])
  }

  lemma KeptEntries(entries: seq<Entry>)
    requires UniqueKeys(entries) && forall i :: 0 <= i < |entries| ==> Kept(entries[i].value)
    ensures Kept(Object(entries)) && KeptIfAny(Unless(entries))
  {}

  // One value.

  lemma StrKept(text: string)
    requires Guard(text).Some?
    ensures Kept(Str(text)) && Guard(text) == Some(text)
  {
    GuardRefusesTokens(text);
  }

  lemma TextKept(at: Place, value: Json)
    ensures KeptIfAny(Text(at, value).value)
  {
    if value.Str? {
      GuardRefusesTokens(value.text);
    }
  }

  lemma PlainWordKept(word: string)
    requires forall i :: 0 <= i < |word| ==> word[i] != '{'
    ensures Kept(Str(word))
  {
    NoTokenIn(word);
    GuardRefusesTokens(word);
  }

  lemma ModeKept(at: Place, value: Json)
    ensures KeptIfAny(ModeNamed(at, value).value)
  {
    if value.Str? && value.text in MODES {
      forall i | 0 <= i < |MODES| ensures Kept(Str(MODES[i])) {
        PlainWordKept(MODES[i]);
      }
    }
  }

  /** A spelling that is a whole number is not one that is a fraction. */
  lemma WholeIsHoldable(text: string)
    requires ParseWhole(text).Some?
    ensures NumberValue(text).Some?
  {
    var signed := text != [] && (text[0] == '-' || text[0] == '+');
    var digits := if signed then text[1..] else text;
    forall i | 0 <= i < |text| ensures text[i] != '.' && text[i] != 'e' && text[i] != 'E' {
      if !(signed && i == 0) {
        assert text[i] == digits[if signed then i - 1 else i];
      }
    }
  }

  lemma PositiveKept(at: Place, value: Json)
    ensures KeptIfAny(Positive(at, value).value)
  {
    if value.Number? && ParseWhole(value.spelled).Some? {
      WholeIsHoldable(value.spelled);
    }
  }

  lemma InsertKept(entries: seq<Entry>, key: string, value: Json)
    requires (forall i :: 0 <= i < |entries| ==> Kept(entries[i].value)) && Kept(value)
    ensures forall i :: 0 <= i < |Insert(entries, key, value)| ==> Kept(Insert(entries, key, value)[i].value)
  {}

  lemma {:induction false} TextsOfMapKept(at: Place, entries: seq<Entry>)
    ensures var kept := KeptTexts(at, entries).0;
            UniqueKeys(kept) && forall i :: 0 <= i < |kept| ==> Kept(kept[i].value)
  {
    if entries != [] {
      var n := |entries| - 1;
      TextsOfMapKept(at, entries[..n]);
      if entries[n].value.Str? && Guard(entries[n].value.text).Some? {
        GuardRefusesTokens(entries[n].value.text);
        assert Kept(entries[n].value);
        InsertKeepsUnique(KeptTexts(at, entries[..n]).0, entries[n].key, entries[n].value);
        InsertKept(KeptTexts(at, entries[..n]).0, entries[n].key, entries[n].value);
      }
    }
  }

  lemma TextMapKept(at: Place, value: Json)
    ensures KeptIfAny(TextMap(at, value).value)
  {
    if value.Object? {
      TextsOfMapKept(at, value.entries);
      KeptEntries(KeptTexts(at, value.entries).0);
    }
  }

  lemma ListKept(elements: seq<Json>)
    requires forall i :: 0 <= i < |elements| ==> Carryable(elements[i])
    ensures Kept(Array(elements))
  {
    forall i | 0 <= i < |elements| ensures Carriable(elements[i]) && WellFormed(elements[i]) {
      assert Carryable(elements[i]);
      StrKept(elements[i].text);
    }
  }

  lemma TextsKept(at: Place, value: Json)
    ensures KeptIfAny(Texts(at, value).value) && KeptIfAny(Program(at, value).value)
  {
    if value.Array? && FirstBad(value.elements, 0).None? {
      NoneBad(value.elements, 0);
      ListKept(value.elements);
    }
  }

  lemma EndpointKept(at: Place, value: Json, reachable: string -> bool)
    ensures KeptIfAny(Endpoint(at, value, reachable).value)
  {
    if value.Str? {
      GuardRefusesTokens(value.text);
    }
  }

  lemma CarryKept(at: Place, value: Json)
    requires WellFormed(value)
    ensures KeptIfAny(Carry(at, value).value)
  {
    GuardedPrunes(at.from, value);
    GuardedWellFormed(at.from, value);
  }

  lemma InstructionsKept(at: Place, value: Json)
    ensures KeptIfAny(Instructions(at, value).value)
  {
    if value.Array? {
      PathsCarryable(at, value.elements);
      ListKept(KeptInstructions(at, value.elements).0);
    }
  }

  lemma {:induction false} PathsCarryable(at: Place, elements: seq<Json>)
    ensures forall kept <- KeptInstructions(at, elements).0 :: Carryable(kept)
  {
    if elements != [] {
      var n := |elements| - 1;
      PathsCarryable(at, elements[..n]);
      if elements[n].Str? && Guard(elements[n].text).Some? {
        StrKept(elements[n].text);
      }
    }
  }

  lemma PermissionKept(at: Place, tools: Option<Json>, explicit: Option<Json>)
    requires explicit.Some? ==> WellFormed(explicit.value)
    ensures KeptIfAny(PermissionOf(at, tools, explicit).value)
  {
    var rules := DerivedRules(at, tools, explicit).0;
    DerivedKept(at, tools, explicit);
    KeptEntries(rules);
    if explicit.Some? && explicit.value.Object? {
      ExplicitKept(at.Child(PERMISSION), rules, explicit.value.entries);
      KeptEntries(Explicit(at.Child(PERMISSION), rules, explicit.value.entries).0);
    } else if explicit.Some? && explicit.value.Str? {
      GuardRefusesTokens(explicit.value.text);
    }
  }

  lemma DerivedKept(at: Place, tools: Option<Json>, explicit: Option<Json>)
    ensures var rules := DerivedRules(at, tools, explicit).0;
            UniqueKeys(rules) && forall i :: 0 <= i < |rules| ==> Kept(rules[i].value)
  {
    if tools.Some? && tools.value.Object? {
      DerivedUnclaimed(at, explicit.Some? && explicit.value.Str?, EntriesIn(explicit), tools.value.entries);
    }
    PlainWordKept("allow");
    PlainWordKept("deny");
  }

  lemma {:induction false} ExplicitKept(target: Place, rules: seq<Entry>, entries: seq<Entry>)
    requires UniqueKeys(rules) && forall i :: 0 <= i < |rules| ==> Kept(rules[i].value)
    requires forall i :: 0 <= i < |entries| ==> WellFormed(entries[i].value)
    ensures var kept := Explicit(target, rules, entries).0;
            UniqueKeys(kept) && forall i :: 0 <= i < |kept| ==> Kept(kept[i].value)
  {
    if entries != [] {
      var n := |entries| - 1;
      ExplicitKept(target, rules, entries[..n]);
      var before := Explicit(target, rules, entries[..n]).0;
      var from := target.Child(entries[n].key).from;
      GuardedPrunes(from, entries[n].value);
      GuardedWellFormed(from, entries[n].value);
      var carried := GuardedOf(from, entries[n].value).value;
      if carried.Some? {
        InsertKeepsUnique(before, entries[n].key, carried.value);
      }
    }
  }

  // Entries.

  ghost predicate EachKept(field: Field, entries: seq<Entry>) {
    forall i :: 0 <= i < |entries| ==> KeptEffect(field(entries[..i], entries[i]))
  }

  lemma {:induction false} WalkKept(field: Field, firstRefusal: bool, entries: seq<Entry>, n: nat)
    requires n <= |entries| && EachKept(field, entries)
    ensures KeptEffect(Walk(field, firstRefusal, entries[..n]))
  {
    if n > 0 {
      WalkKept(field, firstRefusal, entries, n - 1);
      assert entries[..n][..n - 1] == entries[..n - 1];
    }
  }

  predicate NoSlotTwice(order: seq<string>) {
    forall i, j :: 0 <= i < j < |order| ==> order[i] != order[j]
  }

  lemma PresentKept(order: seq<string>, writes: map<string, Option<Json>>)
    requires NoSlotTwice(order) && forall slot <- writes.Keys :: KeptIfAny(writes[slot])
    ensures UniqueKeys(Present(order, writes))
    ensures forall i :: 0 <= i < |Present(order, writes)| ==> Kept(Present(order, writes)[i].value)
    ensures Kept(Object(Present(order, writes))) && KeptIfAny(Unless(Present(order, writes)))
  {
    PresentUnique(order, writes);
    var kept := Present(order, writes);
    forall i | 0 <= i < |kept| ensures Kept(kept[i].value) {
      assert kept[i] in kept;
      assert kept[i].key in writes.Keys;
    }
    KeptEntries(kept);
  }

  lemma OrdersDistinct()
    ensures NoSlotTwice(AGENT_ORDER) && NoSlotTwice(COMMAND_ORDER) && NoSlotTwice([TYPE] + SERVER_ORDER)
    ensures NoSlotTwice(LSP_ORDER) && NoSlotTwice(PROVIDER_ORDER)
  {
    AgentOrderDistinct();
    ServerOrderDistinct();
    assert COMMAND_ORDER[0][0] == 't' && COMMAND_ORDER[1][0] == 'd' && COMMAND_ORDER[2][0] == 'a'
        && COMMAND_ORDER[3][0] == 'm';
    assert LSP_ORDER[0][0] == 'c' && LSP_ORDER[1][1] == 'x' && LSP_ORDER[2][0] == 'd' && LSP_ORDER[3][1] == 'n'
        && LSP_ORDER[4][0] == 'i';
    assert LSP_ORDER[1][0] == 'e' && LSP_ORDER[3][0] == 'e';
    assert PROVIDER_ORDER[0][0] == 'd' && PROVIDER_ORDER[1][0] == 'b' && PROVIDER_ORDER[2][0] == 'h';
  }

  lemma AgentOrderDistinct()
    ensures NoSlotTwice(AGENT_ORDER)
  {
    var o := AGENT_ORDER;
    assert |o[0]| == 5 && |o[1]| == 6 && |o[2]| == 11 && |o[3]| == 4 && |o[4]| == 6 && |o[5]| == 7 && |o[6]| == 10;
    assert o[1][0] == 'p' && o[4][0] == 'h';
  }

  lemma ServerOrderDistinct()
    ensures NoSlotTwice([TYPE] + SERVER_ORDER)
  {
    var o := [TYPE] + SERVER_ORDER;
    assert |o[0]| == 4 && |o[1]| == 7 && |o[2]| == 3 && |o[3]| == 3 && |o[4]| == 11 && |o[5]| == 7 && |o[6]| == 7
        && |o[7]| == 7;
    assert o[1][0] == 'c' && o[5][0] == 'h' && o[6][0] == 'e' && o[7][0] == 't' && o[2][0] == 'u' && o[3][0] == 'c';
  }

  lemma AgentKeyKept(at: Place, primary: bool, whole: Json, before: seq<Entry>, entry: Entry)
    requires WellFormed(whole)
    ensures KeptEffect(AgentKey(at, primary, whole, before, entry))
  {
    var child := at.Child(entry.key);
    TextKept(child, entry.value);
    ModeKept(child, entry.value);
    PermissionKept(at, Get(whole, TOOLS), Get(whole, PERMISSION));
  }

  lemma AgentKept(at: Place, value: Json, primary: bool)
    requires WellFormed(value)
    ensures KeptIfAny(AgentOf(at, value, primary).value)
  {
    if value.Object? {
      var field, entries := AgentField(at, primary, value), value.entries;
      assert entries[..|entries|] == entries;
      forall i | 0 <= i < |entries| ensures KeptEffect(field(entries[..i], entries[i])) {
        AgentKeyKept(at, primary, value, entries[..i], entries[i]);
      }
      WalkKept(field, false, entries, |entries|);
      PlainWordKept(PRIMARY);
      OrdersDistinct();
      var writes := Walk(field, false, entries).writes;
      PresentKept(AGENT_ORDER, writes);
      PresentKept(AGENT_ORDER, writes[MODE := Some(Str(PRIMARY))]);
    }
  }

  lemma CommandKept(at: Place, value: Json)
    ensures KeptIfAny(CommandOf(at, value).value)
  {
    if value.Object? {
      var field, entries := CommandField(at), value.entries;
      assert entries[..|entries|] == entries;
      forall i | 0 <= i < |entries| ensures KeptEffect(field(entries[..i], entries[i])) {
        TextKept(at.Child(entries[i].key), entries[i].value);
      }
      WalkKept(field, false, entries, |entries|);
      OrdersDistinct();
      PresentKept(COMMAND_ORDER, Walk(field, false, entries).writes);
    }
  }

  lemma ServerKeyKept(build: Build, at: Place, local: bool, entry: Entry)
    requires entry.key == TYPE ==> Kept(entry.value)
    ensures KeptEffect(ServerKey(build, at, local, entry))
  {
    var child, value := at.Child(entry.key), entry.value;
    TextsKept(child, value);
    EndpointKept(child, value, build.reachable);
    TextKept(child, value);
    TextMapKept(child, value);
    PositiveKept(child, value);
  }

  lemma KindKept(value: Json)
    requires KindOf(value) in [LOCAL, REMOTE]
    ensures Kept(Str(KindOf(value))) && Get(value, TYPE) == Some(Str(KindOf(value)))
  {
    var kind := KindOf(value);
    assert |LOCAL| == 5 && LOCAL[0] == 'l' && LOCAL[1] == 'o' && LOCAL[2] == 'c' && LOCAL[3] == 'a' && LOCAL[4] == 'l';
    assert |REMOTE| == 6 && REMOTE[0] == 'r' && REMOTE[1] == 'e' && REMOTE[2] == 'm' && REMOTE[3] == 'o'
        && REMOTE[4] == 't' && REMOTE[5] == 'e';
    assert forall i :: 0 <= i < |kind| ==> kind[i] != '{';
    PlainWordKept(kind);
  }

  lemma ServerKept(build: Build, at: Place, value: Json)
    requires WellFormed(value)
    ensures KeptIfAny(ServerOf(build, at, value).value)
  {
    if value.Object? && KindOf(value) in [LOCAL, REMOTE] {
      var kind, local, entries := KindOf(value), KindOf(value) == LOCAL, value.entries;
      var field := ServerField(build, at, local);
      assert entries[..|entries|] == entries;
      KindKept(value);
      forall i | 0 <= i < |entries| ensures KeptEffect(field(entries[..i], entries[i])) {
        NotYet(entries, i);
        ServerKeyKept(build, at, local, entries[i]);
      }
      WalkKept(field, false, entries, |entries|);
      ServerDocumentKept(kind, Walk(field, false, entries).writes);
    }
  }

  lemma ServerDocumentKept(kind: string, writes: map<string, Option<Json>>)
    requires Kept(Str(kind)) && forall slot <- writes.Keys :: KeptIfAny(writes[slot])
    ensures Kept(Object([Entry(TYPE, Str(kind))] + Present(SERVER_ORDER, writes)))
  {
    var rest := Present(SERVER_ORDER, writes);
    var order := [TYPE] + SERVER_ORDER;
    OrdersDistinct();
    forall i, j | 0 <= i < j < |SERVER_ORDER| ensures SERVER_ORDER[i] != SERVER_ORDER[j] {
      assert order[i + 1] != order[j + 1];
    }
    PresentKept(SERVER_ORDER, writes);
    PresentUnique(SERVER_ORDER, writes);
    forall i | 0 <= i < |rest| ensures rest[i].key != TYPE {
      assert rest[i] in rest;
      var j :| 0 <= j < |SERVER_ORDER| && SERVER_ORDER[j] == rest[i].key;
      assert order[0] != order[j + 1];
    }
    KeptEntries([Entry(TYPE, Str(kind))] + rest);
  }

  lemma LspKeyKept(at: Place, entry: Entry)
    requires WellFormed(entry.value)
    ensures KeptEffect(LspKey(at, entry))
  {
    var child := at.Child(entry.key);
    TextsKept(child, entry.value);
    TextMapKept(child, entry.value);
    CarryKept(child, entry.value);
  }

  lemma LspKept(at: Place, name: string, value: Json)
    requires WellFormed(value)
    ensures KeptIfAny(LspOf(at, name, value).value)
  {
    if value.Object? {
      var field, entries := LspField(at), value.entries;
      assert entries[..|entries|] == entries;
      forall i | 0 <= i < |entries| ensures KeptEffect(field(entries[..i], entries[i])) {
        LspKeyKept(at, entries[i]);
      }
      WalkKept(field, false, entries, |entries|);
      OrdersDistinct();
      PresentKept(LSP_ORDER, Walk(field, false, entries).writes);
    }
  }

  lemma OptionsKept(build: Build, at: Place, value: Json)
    ensures KeptEffect(OptionsOf(build, at, value))
  {
    if value.Object? {
      var field, entries := OptionField(build, at), value.entries;
      assert entries[..|entries|] == entries;
      forall i | 0 <= i < |entries| ensures KeptEffect(field(entries[..i], entries[i])) {
        var from := at.from + [Key(OPTIONS), Key(entries[i].key)];
        EndpointKept(Place(from, at.to + [Key(BASE_URL)]), entries[i].value, build.reachable);
        TextMapKept(Place(from, at.to + [Key(HEADERS)]), entries[i].value);
      }
      WalkKept(field, true, entries, |entries|);
      var writes := Walk(field, true, entries).writes;
      assert KeptIfAny(Held(writes, ENDPOINT)) && KeptIfAny(Held(writes, UPSTREAM_URL));
      assert HEADERS in writes ==> HEADERS in writes.Keys;
      forall slot <- OptionSlots(writes).Keys ensures KeptIfAny(OptionSlots(writes)[slot]) {}
    }
  }

  lemma DialectKept(at: Place, value: Json)
    ensures KeptIfAny(Dialect(at, value).value)
  {
    if value.Str? && Wire(value.text).Some? {
      WireHasNoBrace(value.text);
      PlainWordKept(Wire(value.text).value);
    }
  }

  lemma WireHasNoBrace(package: string)
    requires Wire(package).Some?
    ensures forall i :: 0 <= i < |Wire(package).value| ==> Wire(package).value[i] != '{'
  {}

  lemma ProviderKept(build: Build, at: Place, id: string, value: Json)
    ensures KeptIfAny(ProviderOf(build, at, id, value).value)
  {
    if value.Object? {
      var field, entries := ProviderField(build, at), value.entries;
      assert entries[..|entries|] == entries;
      forall i | 0 <= i < |entries| ensures KeptEffect(field(entries[..i], entries[i])) {
        DialectKept(Place(at.Child(entries[i].key).from, at.to + [Key(DIALECT)]), entries[i].value);
        OptionsKept(build, at, entries[i].value);
      }
      WalkKept(field, true, entries, |entries|);
      OrdersDistinct();
      PresentKept(PROVIDER_ORDER, Walk(field, true, entries).writes);
    }
  }

  lemma EntryKept(build: Build, kind: Kind, at: Place, name: string, value: Json)
    requires WellFormed(value)
    ensures KeptIfAny(EntryOf(build, kind, at, name, value).value)
  {
    match kind
    case Agents(primary) => AgentKept(at, value, primary);
    case Commands => CommandKept(at, value);
    case Servers => ServerKept(build, at, value);
    case LanguageServers => LspKept(at, name, value);
    case Providers => ProviderKept(build, at, name, value);
  }

  /** An entry that came across is an object. */
  lemma EntryIsObject(build: Build, kind: Kind, at: Place, name: string, value: Json)
    ensures EntryOf(build, kind, at, name, value).value.Some? ==>
            EntryOf(build, kind, at, name, value).value.value.Object?
  {}

  ghost predicate KeptSection(entries: seq<Entry>) {
    UniqueKeys(entries) && forall i :: 0 <= i < |entries| ==> Kept(entries[i].value) && entries[i].value.Object?
  }

  lemma SectionKept(build: Build, kind: Kind, at: Place, value: Json)
    requires WellFormed(value)
    ensures var section := SectionOf(build, kind, at, value).value;
            KeptIfAny(section) && KeptSection(EntriesIn(section))
            && (section.Some? ==>
                (section.value.Object? && section.value.entries != [])
                  || (kind.LanguageServers? && section.value.Bool?))
  {
    if value.Object? {
      var field, entries := SectionField(build, kind, at), value.entries;
      assert entries[..|entries|] == entries;
      forall i | 0 <= i < |entries| ensures KeptEffect(field(entries[..i], entries[i])) {
        EntryKept(build, kind, at.Child(entries[i].key), entries[i].key, entries[i].value);
      }
      WalkKept(field, false, entries, |entries|);
      var all := Walk(field, false, entries);
      PresentKept(Keys(entries), all.writes);
      var kept := Present(Keys(entries), all.writes);
      forall i | 0 <= i < |kept| ensures kept[i].value.Object? {
        var name := kept[i].key;
        IndexOfUnique(kept, i);
        SectionFinds(build, kind, at, value, name);
        EntryIsObject(build, kind, at.Child(name), name, Find(entries, name).value);
      }
    }
  }

  lemma {:induction false} InsertAllKept(mine: seq<Entry>, theirs: seq<Entry>)
    requires KeptSection(mine) && KeptSection(theirs)
    ensures KeptSection(InsertAll(mine, theirs))
  {
    if theirs != [] {
      var n := |theirs| - 1;
      assert KeptSection(theirs[..n]);
      InsertAllKept(mine, theirs[..n]);
      InsertKeepsUnique(InsertAll(mine, theirs[..n]), theirs[n].key, theirs[n].value);
    }
  }
}
