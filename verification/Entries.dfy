/** The agent and command entries: each reads its keys in the order they are spelled. */
module Entries {
  import opened Optional
  import opened JsonTree
  import opened Landing
  import opened Accounts
  import opened Guarding
  import opened PermissionFold
  import opened Walks
  import opened Fields

  function Set(slot: string, carried: Carried): Effect {
    Effect(map[slot := carried.value], carried.rows, None)
  }

  function Try(slot: string, tried: Tried): Effect {
    Effect(if tried.refused.None? then map[slot := tried.value] else map[], tried.rows, tried.refused)
  }

  function Skip(at: Place, reason: Reason): Effect {
    Effect(map[], [Skipped(at.from, reason)], None)
  }

  /** One key's part is told: sound, and accounting for the key's value unless it refuses the whole entry. */
  ghost predicate PartTold(effect: Effect, at: Place, source: Json, key: string, child: Json, document: Option<Json>) {
    && Sound(effect, at, source, document)
    && (effect.refused.None? ==> Accounted(effect.rows, at.from + [Key(key)], child))
  }

  lemma SourcedWhenTold(carried: Carried, at: Place, value: Json)
    requires Told(carried, at, value)
    ensures AllSourced(carried.rows, at, value)
  {
    forall i | 0 <= i < |carried.rows| ensures Sourced(carried.rows[i], at, value) {
      assert Honest(carried.rows[i], at, value, carried.value);
    }
  }

  lemma SetTold(slot: string, carried: Carried, at: Place, source: Json, child: Json, document: Option<Json>)
    requires Get(source, slot) == Some(child) && Told(carried, at.Child(slot), child)
    ensures PartTold(Set(slot, carried), at, source, slot, child, document)
  {
    var effect := Set(slot, carried);
    SourcedWhenTold(carried, at.Child(slot), child);
    SourcedOfChild(carried.rows, at.Child(slot).from, at.Child(slot).to, at, slot, source, child);
    if Delivers(effect.writes, document) {
      assert slot in effect.writes.Keys;
      AllHonestOfChild(carried.rows, at, slot, source, child, carried.value, document);
    }
  }

  lemma TryTold(slot: string, tried: Tried, at: Place, source: Json, child: Json, document: Option<Json>)
    requires Get(source, slot) == Some(child) && TriedTold(tried, at.Child(slot), child)
    ensures PartTold(Try(slot, tried), at, source, slot, child, document)
  {
    SourcedOfChild(tried.rows, at.Child(slot).from, at.Child(slot).to, at, slot, source, child);
    if tried.refused.None? {
      SetTold(slot, Carried(tried.value, tried.rows), at, source, child, document);
    }
  }

  lemma SkipTold(key: string, reason: Reason, at: Place, source: Json, child: Json, document: Option<Json>)
    requires Get(source, key) == Some(child)
    ensures PartTold(Skip(at.Child(key), reason), at, source, key, child, document)
  {
    var row := Skipped(at.from + [Key(key)], reason);
    assert [Key(key)][1..] == [] && row.from[|at.from|..] == [Key(key)];
    assert At(source, [Key(key)]) == Some(child);
    assert [row][0].from == at.from + [Key(key)];
  }

  lemma NotYet(entries: seq<Entry>, i: nat)
    requires i < |entries| && UniqueKeys(entries)
    ensures !Has(entries[..i], entries[i].key) && Find(entries, entries[i].key) == Some(entries[i].value)
  {
    IndexOfUnique(entries, i);
  }

  function SelfOwned(): Owners {
    slot => {slot}
  }

  /** `permission` and `tools` are one slot, filled by whichever is spelled first. */
  function FoldOwned(): Owners {
    slot => if slot == PERMISSION then {PERMISSION, TOOLS} else {slot}
  }

  predicate FoldedAlready(before: seq<Entry>) {
    Has(before, PERMISSION) || Has(before, TOOLS)
  }

  /** The fold's part, at the first of its two keys: it accounts for both. */
  lemma FoldTold(at: Place, source: Json, document: Option<Json>)
    requires WellFormed(source) && source.Object?
    ensures var effect := Set(PERMISSION, PermissionOf(at, Get(source, TOOLS), Get(source, PERMISSION)));
            && Sound(effect, at, source, document)
            && (Get(source, TOOLS).Some? ==> Accounted(effect.rows, at.from + [Key(TOOLS)], Get(source, TOOLS).value))
            && (Get(source, PERMISSION).Some? ==>
                Accounted(effect.rows, at.from + [Key(PERMISSION)], Get(source, PERMISSION).value))
  {
    var carried := PermissionOf(at, Get(source, TOOLS), Get(source, PERMISSION));
    var effect := Set(PERMISSION, carried);
    PermissionAccounts(at, Get(source, TOOLS), Get(source, PERMISSION));
    var enough := Some(Object([Entry(PERMISSION, if carried.value.Some? then carried.value.value else Null)]));
    PermissionHonest(at, source, enough);
    forall i | 0 <= i < |effect.rows| ensures Sourced(effect.rows[i], at, source) {
      assert Honest(effect.rows[i], at, source, enough);
    }
    if Delivers(effect.writes, document) {
      assert PERMISSION in effect.writes.Keys;
      PermissionHonest(at, source, document);
    }
  }

  /** Where the fold happened, for either of its keys. */
  lemma {:induction false} FoldedAt(entries: seq<Entry>, i: nat) returns (j: nat)
    requires i < |entries| && (entries[i].key == PERMISSION || entries[i].key == TOOLS)
    ensures j <= i && (entries[j].key == PERMISSION || entries[j].key == TOOLS) && !FoldedAlready(entries[..j])
  {
    if FoldedAlready(entries[..i]) {
      var key := if Has(entries[..i], PERMISSION) then PERMISSION else TOOLS;
      var k := IndexOf(entries[..i], key);
      assert entries[..i][k] == entries[k];
      j := FoldedAt(entries, k);
    } else {
      j := i;
    }
  }

  /** What the fold's slot holds at the end, when the first of its two keys fills it. */
  lemma FoldSlot(field: Field, entries: seq<Entry>, value: Option<Json>)
    requires AllOwnSlots(field, FoldOwned(), entries)
    requires forall i :: 0 <= i < |entries| && (entries[i].key == PERMISSION || entries[i].key == TOOLS)
                         && !FoldedAlready(entries[..i]) ==>
               field(entries[..i], entries[i]).writes == map[PERMISSION := value]
    ensures Held(Walk(field, false, entries).writes, PERMISSION) == if FoldedAlready(entries) then value else None
  {
    if FoldedAlready(entries) {
      var j :=
        FoldedAt(entries, if Has(entries, PERMISSION) then IndexOf(entries, PERMISSION) else IndexOf(entries, TOOLS));
      FoldSlotAt(field, entries, value, j);
    } else {
      FoldSlotAbsent(field, entries);
    }
  }

  lemma FoldSlotAt(field: Field, entries: seq<Entry>, value: Option<Json>, j: nat)
    requires AllOwnSlots(field, FoldOwned(), entries) && j < |entries|
    requires field(entries[..j], entries[j]).writes == map[PERMISSION := value]
    ensures Held(Walk(field, false, entries).writes, PERMISSION) == value
  {
    assert entries[..|entries|] == entries;
    WritesStay(field, false, FoldOwned(), entries, |entries|, j);
    assert PERMISSION in field(entries[..j], entries[j]).writes.Keys;
  }

  lemma FoldSlotAbsent(field: Field, entries: seq<Entry>)
    requires AllOwnSlots(field, FoldOwned(), entries) && !FoldedAlready(entries)
    ensures PERMISSION !in Walk(field, false, entries).writes
  {
    assert entries[..|entries|] == entries;
    WalkSlots(field, false, FoldOwned(), entries, |entries|);
    assert !SomeOwner(FoldOwned(), entries, PERMISSION);
  }

  // Agents.

  const DROPPED_AGENT_FIELDS := ["temperature", "top_p", "steps", "maxSteps", "variant", "options", "color"]

  const AGENT_FIELDS := ["model", "prompt", "description", MODE, "hidden", "disable"]

  const AGENT_ORDER := AGENT_FIELDS + [PERMISSION]

  function AgentKey(at: Place, primary: bool, whole: Json, before: seq<Entry>, entry: Entry): Effect {
    var child, key, value := at.Child(entry.key), entry.key, entry.value;
    if key == "model" || key == "prompt" || key == "description" then Set(key, Text(child, value))
    else if key == MODE then if primary then Skip(child, Overridden) else Set(key, ModeNamed(child, value))
    else if key == "hidden" || key == "disable" then Set(key, Flag(child, value))
    else if key == PERMISSION || key == TOOLS then
      if FoldedAlready(before) then NOTHING
      else Set(PERMISSION, PermissionOf(at, Get(whole, TOOLS), Get(whole, PERMISSION)))
    else if key in DROPPED_AGENT_FIELDS then Skip(child, Unsupported)
    else Skip(child, UnknownKey)
  }

  function AgentField(at: Place, primary: bool, whole: Json): Field {
    (before, entry) => AgentKey(at, primary, whole, before, entry)
  }

  function AgentOf(at: Place, value: Json, primary: bool): Carried {
    if !value.Object? then Mistaken(at)
    else
      var all := Walk(AgentField(at, primary, value), false, value.entries);
      if primary then
        Carried(Unless(Present(AGENT_ORDER, all.writes[MODE := Some(Str(PRIMARY))])),
                all.rows + [Mapped(at.from, at.to + [Key(MODE)])])
      else Carried(Unless(Present(AGENT_ORDER, all.writes)), all.rows)
  }

  lemma AgentKeyOwns(at: Place, primary: bool, whole: Json, entries: seq<Entry>, i: nat)
    requires i < |entries| && UniqueKeys(entries)
    ensures var effect := AgentKey(at, primary, whole, entries[..i], entries[i]);
            && OwnSlots(effect, FoldOwned(), entries[..i], entries[i]) && SlotsIn(effect, AGENT_ORDER)
            && (primary ==> MODE !in effect.writes) && effect.refused.None?
  {
    NotYet(entries, i);
    assert |PERMISSION| == 10 && |MODE| == 4;
    assert AGENT_ORDER[6] == PERMISSION;
  }

  lemma AgentKeySound(at: Place, primary: bool, whole: Json, i: nat, document: Option<Json>)
    requires whole.Object? && WellFormed(whole) && i < |whole.entries|
    ensures var entry := whole.entries[i];
            var effect := AgentKey(at, primary, whole, whole.entries[..i], entry);
            && Sound(effect, at, whole, document)
            && (entry.key == PERMISSION || entry.key == TOOLS
                || Accounted(effect.rows, at.from + [Key(entry.key)], entry.value))
  {
    var key, value := whole.entries[i].key, whole.entries[i].value;
    var child := at.Child(key);
    NotYet(whole.entries, i);
    if key == "model" || key == "prompt" || key == "description" {
      TextTold(child, value);
      SetTold(key, Text(child, value), at, whole, value, document);
    } else if key == MODE && !primary {
      ModeTold(child, value);
      SetTold(key, ModeNamed(child, value), at, whole, value, document);
    } else if key == "hidden" || key == "disable" {
      FlagTold(child, value);
      SetTold(key, Flag(child, value), at, whole, value, document);
    } else if key == PERMISSION || key == TOOLS {
      FoldTold(at, whole, document);
    } else {
      SkipTold(key, Overridden, at, whole, value, document);
      SkipTold(key, Unsupported, at, whole, value, document);
      SkipTold(key, UnknownKey, at, whole, value, document);
    }
  }

  /** What the first of the fold's two keys does. */
  lemma AgentFoldEffect(at: Place, primary: bool, whole: Json, before: seq<Entry>, entry: Entry)
    requires (entry.key == PERMISSION || entry.key == TOOLS) && !FoldedAlready(before)
    ensures AgentKey(at, primary, whole, before, entry)
            == Set(PERMISSION, PermissionOf(at, Get(whole, TOOLS), Get(whole, PERMISSION)))
  {
    assert |PERMISSION| == 10 && |TOOLS| == 5 && TOOLS[0] == 't' && |MODE| == 4;
  }

  /** Both keys of the fold are accounted for, wherever it happened. */
  lemma AgentFoldAccounts(at: Place, primary: bool, whole: Json, i: nat)
    requires whole.Object? && WellFormed(whole) && i < |whole.entries|
    requires whole.entries[i].key == PERMISSION || whole.entries[i].key == TOOLS
    ensures Accounted(Walk(AgentField(at, primary, whole), false, whole.entries).rows,
                      at.from + [Key(whole.entries[i].key)], whole.entries[i].value)
  {
    var j := FoldedAt(whole.entries, i);
    FoldTold(at, whole, None);
    NotYet(whole.entries, i);
    AgentFoldEffect(at, primary, whole, whole.entries[..j], whole.entries[j]);
    WalkIncludes(AgentField(at, primary, whole), false, whole.entries, j, at.from + [Key(whole.entries[i].key)],
                 whole.entries[i].value);
  }

  lemma AgentTold(at: Place, value: Json, primary: bool)
    requires WellFormed(value)
    ensures Told(AgentOf(at, value, primary), at, value)
  {
    if !value.Object? {
      OneRowTold(AgentOf(at, value, primary), at, value);
      return;
    }
    var field, entries, carried := AgentField(at, primary, value), value.entries, AgentOf(at, value, primary);
    var all := Walk(field, false, entries);
    assert entries[..|entries|] == entries;
    forall i | 0 <= i < |entries|
      ensures OwnSlots(field(entries[..i], entries[i]), FoldOwned(), entries[..i], entries[i])
      ensures SlotsIn(field(entries[..i], entries[i]), AGENT_ORDER)
      ensures Sound(field(entries[..i], entries[i]), at, value, carried.value)
    {
      AgentKeyOwns(at, primary, value, entries, i);
      AgentKeySound(at, primary, value, i, carried.value);
    }
    WalkSound(field, false, FoldOwned(), entries, at, value, carried.value);
    AgentDelivers(at, value, primary);
    if primary {
      var own := Mapped(at.from, at.to + [Key(MODE)]);
      assert own.from[|at.from|..] == [] && own.to[|at.to|..] == [Key(MODE)] && [Key(MODE)][1..] == [];
      assert At(carried.value.value, [Key(MODE)]) == Some(Str(PRIMARY));
      AllHonestBoth(all.rows, [own], at, value, carried.value);
      assert carried.rows[|all.rows|].from == at.from;
    } else {
      forall i | 0 <= i < |entries| ensures Accounted(all.rows, at.from + [Key(entries[i].key)], entries[i].value) {
        if entries[i].key == PERMISSION || entries[i].key == TOOLS {
          AgentFoldAccounts(at, primary, value, i);
        } else {
          AgentKeySound(at, primary, value, i, carried.value);
          WalkIncludes(field, false, entries, i, at.from + [Key(entries[i].key)], entries[i].value);
        }
      }
    }
  }

  lemma AgentDelivers(at: Place, value: Json, primary: bool)
    requires WellFormed(value) && value.Object?
    ensures var all := Walk(AgentField(at, primary, value), false, value.entries);
            Delivers(all.writes, AgentOf(at, value, primary).value) && all.refused.None?
    ensures primary ==>
            AgentOf(at, value, primary).value.Some?
              && Get(AgentOf(at, value, primary).value.value, MODE) == Some(Str(PRIMARY))
  {
    var field, entries := AgentField(at, primary, value), value.entries;
    var all := Walk(field, false, entries);
    AgentWalkClean(at, value, primary, |entries|);
    assert entries[..|entries|] == entries;
    forall i | 0 <= i < |entries| ensures SlotsIn(field(entries[..i], entries[i]), AGENT_ORDER) {
      AgentKeyOwns(at, primary, value, entries, i);
    }
    WalkSlotsIn(field, false, entries, AGENT_ORDER, |entries|);
    var writes := if primary then all.writes[MODE := Some(Str(PRIMARY))] else all.writes;
    assert AGENT_ORDER[3] == MODE;
    PresentDelivers(AGENT_ORDER, writes);
    assert primary ==> MODE in writes.Keys && writes[MODE] == Some(Str(PRIMARY));
  }

  lemma {:induction false} AgentWalkClean(at: Place, value: Json, primary: bool, n: nat)
    requires WellFormed(value) && value.Object? && n <= |value.entries|
    ensures var all := Walk(AgentField(at, primary, value), false, value.entries[..n]);
            all.refused.None? && (primary ==> MODE !in all.writes)
  {
    if n > 0 {
      AgentWalkClean(at, value, primary, n - 1);
      AgentKeyOwns(at, primary, value, value.entries, n - 1);
      assert value.entries[..n][..n - 1] == value.entries[..n - 1];
    }
  }

  // A key that fills its own slot and no other, which is every key outside an agent and a provider.

  /** What such a key does, and that it is told. */
  ghost predicate PlainKey(effect: Effect, at: Place, whole: Json, i: nat, document: Option<Json>)
    requires whole.Object? && i < |whole.entries|
  {
    var entry := whole.entries[i];
    && PartTold(effect, at, whole, entry.key, entry.value, document)
    && OwnSlots(effect, SelfOwned(), whole.entries[..i], entry)
  }

  lemma SetPlain(carried: Carried, at: Place, whole: Json, i: nat, document: Option<Json>)
    requires whole.Object? && WellFormed(whole) && i < |whole.entries|
    requires Told(carried, at.Child(whole.entries[i].key), whole.entries[i].value)
    ensures PlainKey(Set(whole.entries[i].key, carried), at, whole, i, document)
  {
    NotYet(whole.entries, i);
    SetTold(whole.entries[i].key, carried, at, whole, whole.entries[i].value, document);
  }

  lemma TryPlain(tried: Tried, at: Place, whole: Json, i: nat, document: Option<Json>)
    requires whole.Object? && WellFormed(whole) && i < |whole.entries|
    requires TriedTold(tried, at.Child(whole.entries[i].key), whole.entries[i].value)
    ensures PlainKey(Try(whole.entries[i].key, tried), at, whole, i, document)
  {
    NotYet(whole.entries, i);
    TryTold(whole.entries[i].key, tried, at, whole, whole.entries[i].value, document);
  }

  lemma SkipPlain(reason: Reason, at: Place, whole: Json, i: nat, document: Option<Json>)
    requires whole.Object? && WellFormed(whole) && i < |whole.entries|
    ensures PlainKey(Skip(at.Child(whole.entries[i].key), reason), at, whole, i, document)
  {
    NotYet(whole.entries, i);
    SkipTold(whole.entries[i].key, reason, at, whole, whole.entries[i].value, document);
  }

  /** A walk over such keys is told whole, or refuses. */
  lemma PlainWalkTold(field: Field, firstRefusal: bool, at: Place, whole: Json, document: Option<Json>)
    requires whole.Object? && WellFormed(whole)
    requires forall i :: 0 <= i < |whole.entries| ==>
             PlainKey(field(whole.entries[..i], whole.entries[i]), at, whole, i, document)
    ensures WalkTold(Walk(field, firstRefusal, whole.entries), at, whole, document)
  {
    var entries := whole.entries;
    var all := Walk(field, firstRefusal, entries);
    assert entries[..|entries|] == entries;
    forall i | 0 <= i < |entries|
      ensures OwnSlots(field(entries[..i], entries[i]), SelfOwned(), entries[..i], entries[i])
      ensures Sound(field(entries[..i], entries[i]), at, whole, document)
    {
      assert PlainKey(field(entries[..i], entries[i]), at, whole, i, document);
    }
    WalkSound(field, firstRefusal, SelfOwned(), entries, at, whole, document);
    if all.refused.None? {
      forall i | 0 <= i < |entries| ensures Accounted(all.rows, at.from + [Key(entries[i].key)], entries[i].value) {
        WalkRefusal(field, firstRefusal, entries, |entries|, i);
        assert PlainKey(field(entries[..i], entries[i]), at, whole, i, document);
        WalkIncludes(field, firstRefusal, entries, i, at.from + [Key(entries[i].key)], entries[i].value);
      }
    }
  }

  ghost predicate WalkTold(all: Effect, at: Place, whole: Json, document: Option<Json>) {
    && Sound(all, at, whole, document)
    && (all.refused.None? ==> Accounted(all.rows, at.from, whole))
  }

  // Commands.

  const DROPPED_COMMAND_FIELDS := ["variant", "subtask"]

  const TEMPLATE := "template"

  const COMMAND_ORDER := [TEMPLATE, "description", "agent", "model"]

  function CommandKey(at: Place, entry: Entry): Effect {
    var child := at.Child(entry.key);
    if entry.key in COMMAND_ORDER then Set(entry.key, Text(child, entry.value))
    else if entry.key in DROPPED_COMMAND_FIELDS then Skip(child, Unsupported)
    else Skip(child, UnknownKey)
  }

  function CommandField(at: Place): Field {
    (before, entry) => CommandKey(at, entry)
  }

  /** A command without a template is no command; what was read of it stays in the report. */
  function CommandOf(at: Place, value: Json): Carried {
    if !value.Object? then Mistaken(at)
    else
      var all := Walk(CommandField(at), false, value.entries);
      if Held(all.writes, TEMPLATE).None? then Carried(None, all.rows + [Skipped(at.from, Malformed)])
      else Carried(Unless(Present(COMMAND_ORDER, all.writes)), all.rows)
  }

  lemma CommandKeyPlain(at: Place, whole: Json, i: nat, document: Option<Json>)
    requires whole.Object? && WellFormed(whole) && i < |whole.entries|
    ensures PlainKey(CommandKey(at, whole.entries[i]), at, whole, i, document)
    ensures SlotsIn(CommandKey(at, whole.entries[i]), COMMAND_ORDER) && CommandKey(at, whole.entries[i]).refused.None?
  {
    var key, value := whole.entries[i].key, whole.entries[i].value;
    if key in COMMAND_ORDER {
      TextTold(at.Child(key), value);
      SetPlain(Text(at.Child(key), value), at, whole, i, document);
    } else {
      SkipPlain(Unsupported, at, whole, i, document);
      SkipPlain(UnknownKey, at, whole, i, document);
    }
  }

  lemma {:induction false} CommandWalkClean(at: Place, entries: seq<Entry>)
    ensures Walk(CommandField(at), false, entries).refused.None?
  {
    if entries != [] {
      CommandWalkClean(at, entries[..|entries| - 1]);
    }
  }

  /** A command is told; one refused for its template is accounted for, but rows may say its other keys landed. */
  lemma CommandTold(at: Place, value: Json)
    requires WellFormed(value)
    ensures Accounted(CommandOf(at, value).rows, at.from, value) && AllSourced(CommandOf(at, value).rows, at, value)
    ensures CommandOf(at, value).value.Some? || !value.Object? ==> Told(CommandOf(at, value), at, value)
  {
    var carried := CommandOf(at, value);
    if !value.Object? {
      OneRowTold(carried, at, value);
      SourcedWhenTold(carried, at, value);
      return;
    }
    var field, entries := CommandField(at), value.entries;
    var all := Walk(field, false, entries);
    assert entries[..|entries|] == entries;
    forall i | 0 <= i < |entries|
      ensures PlainKey(field(entries[..i], entries[i]), at, value, i, carried.value)
      ensures SlotsIn(field(entries[..i], entries[i]), COMMAND_ORDER)
    {
      CommandKeyPlain(at, value, i, carried.value);
    }
    PlainWalkTold(field, false, at, value, carried.value);
    CommandWalkClean(at, entries);
    if carried.value.None? && Held(all.writes, TEMPLATE).None? {
      var own := Skipped(at.from, Malformed);
      assert own.from[|at.from|..] == [];
      assert carried.rows[|all.rows|].from == at.from;
    } else {
      WalkSlotsIn(field, false, entries, COMMAND_ORDER, |entries|);
      PresentDelivers(COMMAND_ORDER, all.writes);
    }
  }
}
