/**
 * What an agent's rows look like, and what a `mode` makes of each key of an agent: the two together say, on
 * the source alone, which rows of an agent stay true when a mode takes its place.
 */
module AgentRows {
  import opened Optional
  import opened JsonTree
  import opened Tokens
  import opened Landing
  import opened Accounts
  import opened PermissionFold
  import opened Walks
  import opened Fields
  import opened Entries

  // The shape of a mapped row.

  /** A field, the bare action, one explicit rule, or one tool's. */
  predicate AgentShape(value: Json, from: Path, to: Path) {
    || (|from| == 1 && to == from && from[0].Key? && from[0].key in AGENT_FIELDS)
    || (from == [Key(PERMISSION)] && to == from && BareAction(value))
    || (|from| == 2 && to == from && from[0] == Key(PERMISSION) && from[1].Key?)
    || (|from| == 2 && from[0] == Key(TOOLS) && from[1].Key? && to == [Key(PERMISSION), Key(ToolNamed(from[1].key))])
  }

  predicate BareAction(value: Json) {
    var explicit := Get(value, PERMISSION);
    explicit.Some? && explicit.value.Str? && !OnlyToken(explicit.value.text)
  }

  predicate Shaped(row: Row, at: Place, value: Json) {
    row.Mapped? ==>
      && Beneath(at.from, row.from) && Beneath(at.to, row.to)
      && AgentShape(value, row.from[|at.from|..], row.to[|at.to|..])
  }

  lemma ShapedHere(at: Place, value: Json, from: Path, to: Path)
    requires AgentShape(value, from, to)
    ensures Shaped(Mapped(at.from + from, at.to + to), at, value)
  {
    assert (at.from + from)[|at.from|..] == from && (at.to + to)[|at.to|..] == to;
  }

  lemma {:induction false} ToolsShaped(at: Place, replaced: bool, claims: seq<Entry>, tools: seq<Entry>, value: Json)
    ensures forall row <- Derived(at, replaced, claims, tools).1 :: Shaped(row, at, value)
  {
    if tools != [] {
      var name := tools[|tools| - 1].key;
      ToolsShaped(at, replaced, claims, tools[..|tools| - 1], value);
      ShapedHere(at, value, [Key(TOOLS), Key(name)], [Key(PERMISSION), Key(ToolNamed(name))]);
    }
  }

  lemma {:induction false} RulesShaped(at: Place, rules: seq<Entry>, entries: seq<Entry>, value: Json)
    ensures forall row <- Explicit(at.Child(PERMISSION), rules, entries).1 :: Shaped(row, at, value)
  {
    if entries != [] {
      var last := entries[|entries| - 1];
      var own := [Key(PERMISSION), Key(last.key)];
      RulesShaped(at, rules, entries[..|entries| - 1], value);
      ShapedHere(at, value, own, own);
      GuardedAllSkipped(at.Child(PERMISSION).Child(last.key).from, last.value);
      assert at.Child(PERMISSION).Child(last.key).from == at.from + own;
      assert at.Child(PERMISSION).Child(last.key).to == at.to + own;
    }
  }

  lemma FoldShaped(at: Place, value: Json)
    ensures forall row <- PermissionOf(at, Get(value, TOOLS), Get(value, PERMISSION)).rows :: Shaped(row, at, value)
  {
    var tools, explicit := Get(value, TOOLS), Get(value, PERMISSION);
    var (rules, rows) := DerivedRules(at, tools, explicit);
    ToolsShaped(at, explicit.Some? && explicit.value.Str?, EntriesIn(explicit), EntriesIn(tools), value);
    RulesShaped(at, rules, EntriesIn(explicit), value);
    if explicit.Some? && explicit.value.Str? {
      GuardRefusesTokens(explicit.value.text);
      if BareAction(value) {
        ShapedHere(at, value, [Key(PERMISSION)], [Key(PERMISSION)]);
      }
    }
  }

  lemma FieldShaped(at: Place, value: Json, key: string)
    requires key in AGENT_FIELDS
    ensures Shaped(Mapped(at.Child(key).from, at.Child(key).to), at, value)
  {
    ShapedHere(at, value, [Key(key)], [Key(key)]);
  }

  /** Every mapped row of an agent is of one of the four shapes. */
  lemma RowsAreShaped(at: Place, value: Json)
    ensures forall row <- AgentOf(at, value, false).rows :: Shaped(row, at, value)
  {
    if value.Object? {
      var field, entries := AgentField(at, false, value), value.entries;
      var good := row => Shaped(row, at, value);
      assert entries[..|entries|] == entries;
      forall i | 0 <= i < |entries| ensures EachRow(field(entries[..i], entries[i]).rows, good) {
        KeyShaped(at, value, entries[..i], entries[i]);
      }
      WalkRows(field, false, entries, |entries|, good);
      var rows := AgentOf(at, value, false).rows;
      forall row | row in rows ensures Shaped(row, at, value) {
        var i :| 0 <= i < |rows| && rows[i] == row;
        assert good(rows[i]);
      }
    }
  }

  lemma KeyShaped(at: Place, value: Json, before: seq<Entry>, entry: Entry)
    ensures forall row <- AgentKey(at, false, value, before, entry).rows :: Shaped(row, at, value)
  {
    FoldShaped(at, value);
    if entry.key in AGENT_FIELDS {
      FieldShaped(at, value, entry.key);
    }
  }

  // What a mode makes of a key.

  /**
   * A field of the definition an agent becomes: a mode's is always primary, and for the rest it is what was
   * spelled, if that can be read.
   */
  function FieldOf(value: Json, key: string, primary: bool): Option<Json> {
    var spelled := Get(value, key);
    if key == MODE && primary then Some(Str("primary"))
    else if spelled.None? then None
    else if key == MODE then
      if spelled.value in [Str("primary"), Str("subagent"), Str("all")] then spelled else None
    else if key in ["hidden", "disable"] then if spelled.value.Bool? then spelled else None
    else if spelled.value.Str? && !OnlyToken(spelled.value.text) then spelled
    else None
  }

  /** Whether a mode says of a key what the agent's own entry said. */
  predicate ModeSays(own: Json, mode: Json, from: Path) {
    if |from| == 1 && from[0] == Key(PERMISSION) then Get(mode, PERMISSION) == Get(own, PERMISSION)
    else if |from| == 1 && from[0].Key?
      then Get(own, from[0].key).Some? && FieldOf(mode, from[0].key, true) == Get(own, from[0].key)
    else if |from| == 2 && from[0] == Key(TOOLS) && from[1].Key? then
      var allowed := Get2(own, TOOLS, from[1].key);
      && allowed.Some? && allowed.value.Bool?
      && RuleOf(mode, ToolNamed(from[1].key)) == Some(Spelled(allowed.value.flag))
    else
      false
  }

  /** An explicit rule keeps its patterns, those that cannot be held apart. */
  ghost predicate ModeSaysRule(own: Json, mode: Json, tool: string) {
    var rule := Get2(own, PERMISSION, tool);
    rule.Some? && RuleOf(mode, tool).Some? && Prunes(rule.value, RuleOf(mode, tool).value)
  }

  ghost predicate ModeSaysIt(own: Json, mode: Json, from: Path) {
    if |from| == 2 && from[0] == Key(PERMISSION) && from[1].Key? then ModeSaysRule(own, mode, from[1].key)
    else ModeSays(own, mode, from)
  }

  /** Whether a mode's definition has anything where an agent's row leads. */
  ghost predicate ModeHas(mode: Json, to: Path) {
    if |to| == 1 && to[0] == Key(PERMISSION) then SomeRule(mode)
    else if |to| == 1 && to[0].Key? then FieldOf(mode, to[0].key, true).Some?
    else |to| == 2 && to[1].Key? && RuleOf(mode, to[1].key).Some?
  }

  lemma FieldWritten(at: Place, value: Json, primary: bool, before: seq<Entry>, entry: Entry)
    requires entry.key in AGENT_FIELDS && !(entry.key == MODE && primary) && Get(value, entry.key) == Some(entry.value)
    ensures Held(AgentKey(at, primary, value, before, entry).writes, entry.key) == FieldOf(value, entry.key, primary)
  {
    if entry.key == MODE {
      ModeWritten(at, value, before, entry);
    } else {
      FieldNames(entry.key);
      OtherWritten(at, value, primary, before, entry);
    }
  }

  lemma ModeWritten(at: Place, value: Json, before: seq<Entry>, entry: Entry)
    requires entry.key == MODE && Get(value, MODE) == Some(entry.value)
    ensures Held(AgentKey(at, false, value, before, entry).writes, MODE) == FieldOf(value, MODE, false)
  {
    assert |MODE| == 4 && MODE[1] == 'o' && MODE[2] == 'd';
    ModeWords(entry.value);
  }

  lemma OtherWritten(at: Place, value: Json, primary: bool, before: seq<Entry>, entry: Entry)
    requires entry.key in AGENT_FIELDS && entry.key != MODE && Get(value, entry.key) == Some(entry.value)
    ensures Held(AgentKey(at, primary, value, before, entry).writes, entry.key) == FieldOf(value, entry.key, primary)
  {
    if entry.value.Str? {
      GuardRefusesTokens(entry.value.text);
    }
  }

  lemma ModeWords(value: Json)
    ensures value.Str? && value.text in MODES <==> value in [Str("primary"), Str("subagent"), Str("all")]
  {
    assert MODES == ["primary", "subagent", "all"];
    assert value.Str? ==> value == Str(value.text);
  }

  lemma FieldNames(key: string)
    requires key in AGENT_FIELDS
    ensures key != PERMISSION && key != TOOLS && key in AGENT_ORDER && FoldOwned()(key) == {key}
  {
    assert |PERMISSION| == 10 && |TOOLS| == 5;
    assert |AGENT_FIELDS[0]| == 5 && AGENT_FIELDS[0][0] == 'm' && TOOLS[0] == 't';
    assert |AGENT_FIELDS[1]| == 6 && |AGENT_FIELDS[2]| == 11 && |AGENT_FIELDS[3]| == 4 && |AGENT_FIELDS[4]| == 6
        && |AGENT_FIELDS[5]| == 7;
  }

  lemma AgentWalkOwns(at: Place, value: Json, primary: bool)
    requires WellFormed(value) && value.Object?
    ensures AllOwnSlots(AgentField(at, primary, value), FoldOwned(), value.entries)
  {
    var field, entries := AgentField(at, primary, value), value.entries;
    forall i | 0 <= i < |entries|
      ensures OwnSlots(field(entries[..i], entries[i]), FoldOwned(), entries[..i], entries[i])
    {
      AgentKeyOwns(at, primary, value, entries, i);
    }
  }

  /** What the walk over an agent leaves in a field's slot. */
  lemma FieldHeld(at: Place, value: Json, primary: bool, key: string)
    requires WellFormed(value) && value.Object? && key in AGENT_FIELDS && !(key == MODE && primary)
    ensures Held(Walk(AgentField(at, primary, value), false, value.entries).writes, key)
            == FieldOf(value, key, primary)
  {
    var entries := value.entries;
    AgentWalkOwns(at, value, primary);
    FieldNames(key);
    SlotFrom(AgentField(at, primary, value), false, FoldOwned(), entries, key, key);
    var i := IndexOf(entries, key);
    if i < |entries| {
      FieldWritten(at, value, primary, entries[..i], entries[i]);
    }
  }

  /** And in that of the fold. */
  lemma FoldHeld(at: Place, value: Json, primary: bool)
    requires WellFormed(value) && value.Object?
    ensures Held(Walk(AgentField(at, primary, value), false, value.entries).writes, PERMISSION)
            == PermissionOf(at, Get(value, TOOLS), Get(value, PERMISSION)).value
  {
    var entries := value.entries;
    var rules := PermissionOf(at, Get(value, TOOLS), Get(value, PERMISSION)).value;
    AgentWalkOwns(at, value, primary);
    forall i | 0 <= i < |entries| && (entries[i].key == PERMISSION || entries[i].key == TOOLS)
               && !FoldedAlready(entries[..i])
      ensures AgentKey(at, primary, value, entries[..i], entries[i]).writes == map[PERMISSION := rules]
    {
      AgentFoldEffect(at, primary, value, entries[..i], entries[i]);
    }
    FoldSlot(AgentField(at, primary, value), entries, rules);
  }

  /** What an agent's entry becomes, key by key; a mode's always becomes something. */
  lemma DefinitionHolds(at: Place, value: Json, primary: bool, key: string)
    requires WellFormed(value) && value.Object?
    ensures primary ==> AgentOf(at, value, primary).value.Some?
    ensures var kept := AgentOf(at, value, primary).value;
            && (kept.Some? ==> kept.value.Object? && kept.value.entries != [])
            && (if kept.Some? then Get(kept.value, key) else None)
               == if key in AGENT_FIELDS then FieldOf(value, key, primary)
                  else if key == PERMISSION then PermissionOf(at, Get(value, TOOLS), Get(value, PERMISSION)).value
                  else None
  {
    var writes := Walk(AgentField(at, primary, value), false, value.entries).writes;
    var all := if primary then writes[MODE := Some(Str(PRIMARY))] else writes;
    AgentDelivers(at, value, primary);
    FoldHeld(at, value, primary);
    PresentFinds(AGENT_ORDER, all, key);
    assert |PERMISSION| == 10 && |MODE| == 4 && AGENT_ORDER[6] == PERMISSION;
    if key in AGENT_FIELDS {
      FieldNames(key);
      if !(key == MODE && primary) {
        FieldHeld(at, value, primary, key);
      }
    }
  }

  /** A mode's definition has something where an agent's row leads exactly when the mode spells it. */
  lemma HasExactly(at: Place, own: Json, mode: Json, from: Path, to: Path)
    requires WellFormed(mode) && mode.Object? && AgentShape(own, from, to)
    ensures AgentOf(at, mode, true).value.Some?
    ensures At(AgentOf(at, mode, true).value.value, to).Some? <==> ModeHas(mode, to)
  {
    var definition := AgentOf(at, mode, true).value;
    DefinitionHolds(at, mode, true, to[0].key);
    if |to| == 1 {
      AtOne(definition.value, to);
      FoldIsThere(at, mode);
    } else {
      AtTwo(definition.value, to);
      FoldHolds(at, mode, to[1].key);
    }
  }

  /** It says there what the agent's row says exactly when the mode's own keys do. */
  lemma SaysExactly(at: Place, own: Json, mode: Json, from: Path, to: Path)
    requires WellFormed(mode) && mode.Object? && AgentShape(own, from, to)
    ensures AgentOf(at, mode, true).value.Some?
    ensures SaysItself(own, AgentOf(at, mode, true).value.value, from, to) <==> ModeSaysIt(own, mode, from)
  {
    DefinitionHolds(at, mode, true, to[0].key);
    SaysIn(at, own, mode, AgentOf(at, mode, true).value.value, from, to);
  }

  /** The same of any definition that holds under the row's first key what the mode makes of it. */
  lemma SaysIn(at: Place, own: Json, mode: Json, definition: Json, from: Path, to: Path)
    requires WellFormed(mode) && AgentShape(own, from, to)
    requires Get(definition, to[0].key)
             == if to[0].key in AGENT_FIELDS then FieldOf(mode, to[0].key, true)
                else PermissionOf(at, Get(mode, TOOLS), Get(mode, PERMISSION)).value
    ensures SaysItself(own, definition, from, to) <==> ModeSaysIt(own, mode, from)
  {
    FieldsApart();
    ShapeIs(own, from, to);
    if |from| == 2 {
      RuleHeld(at, mode, definition, to[1].key);
      if from[0] == Key(TOOLS) {
        ToolSays(own, mode, definition, from, to);
      } else {
        RuleSays(own, mode, definition, from);
      }
    } else if from[0] == Key(PERMISSION) {
      ActionSays(at, own, mode, definition, from);
    } else {
      FieldSays(own, mode, definition, from);
    }
  }

  /** A row of two steps leads under `permission`, and one of one step where it came from. */
  lemma ShapeIs(own: Json, from: Path, to: Path)
    requires AgentShape(own, from, to)
    ensures |from| == 1 ==> to == from && from[0].Key?
    ensures |from| == 1 && from[0] == Key(PERMISSION) ==> BareAction(own)
    ensures |from| == 1 && from[0] != Key(PERMISSION) ==> from[0].key in AGENT_FIELDS
    ensures |from| == 1 || |from| == 2
    ensures |from| == 2 ==> |to| == 2 && to[0] == Key(PERMISSION) && from[1].Key? && to[1].Key?
    ensures |from| == 2 && from[0] == Key(TOOLS) ==> to[1] == Key(ToolNamed(from[1].key)) && from[0] != Key(PERMISSION)
    ensures |from| == 2 && from[0] != Key(TOOLS) ==> to == from && from[0] == Key(PERMISSION)
  {
    FieldsApart();
    assert |TOOLS| == 5 && |PERMISSION| == 10;
  }

  lemma RuleHeld(at: Place, mode: Json, definition: Json, tool: string)
    requires WellFormed(mode)
    requires Get(definition, PERMISSION) == PermissionOf(at, Get(mode, TOOLS), Get(mode, PERMISSION)).value
    ensures Get2(definition, PERMISSION, tool) == RuleOf(mode, tool)
  {
    FoldHolds(at, mode, tool);
  }

  lemma FieldsApart()
    ensures PERMISSION !in AGENT_FIELDS
  {
    if PERMISSION in AGENT_FIELDS {
      FieldNames(PERMISSION);
    }
  }

  lemma ToolSays(own: Json, mode: Json, definition: Json, from: Path, to: Path)
    requires |from| == 2 && from[0] == Key(TOOLS) && from[1].Key?
    requires to == [Key(PERMISSION), Key(ToolNamed(from[1].key))]
    requires Get2(definition, PERMISSION, to[1].key) == RuleOf(mode, to[1].key)
    ensures SaysItself(own, definition, from, to) <==> ModeSaysIt(own, mode, from)
  {
    AtTwo(own, from);
    AtTwo(definition, to);
    assert |TOOLS| == 5 && |PERMISSION| == 10;
  }

  lemma FieldSays(own: Json, mode: Json, definition: Json, from: Path)
    requires |from| == 1 && from[0].Key? && from[0].key in AGENT_FIELDS
    requires Get(definition, from[0].key) == FieldOf(mode, from[0].key, true)
    ensures SaysItself(own, definition, from, from) <==> ModeSaysIt(own, mode, from)
  {
    FieldNames(from[0].key);
    assert from[1..] == [];
  }

  lemma ActionSays(at: Place, own: Json, mode: Json, definition: Json, from: Path)
    requires from == [Key(PERMISSION)] && BareAction(own)
    requires Get(definition, PERMISSION) == PermissionOf(at, Get(mode, TOOLS), Get(mode, PERMISSION)).value
    ensures SaysItself(own, definition, from, from) <==> ModeSaysIt(own, mode, from)
  {
    var explicit := Get(mode, PERMISSION);
    assert from[1..] == [];
    if explicit.Some? && explicit.value.Str? {
      GuardRefusesTokens(explicit.value.text);
    }
  }

  lemma RuleSays(own: Json, mode: Json, definition: Json, from: Path)
    requires |from| == 2 && from[0] == Key(PERMISSION) && from[1].Key?
    requires Get2(definition, PERMISSION, from[1].key) == RuleOf(mode, from[1].key)
    ensures SaysItself(own, definition, from, from) <==> ModeSaysIt(own, mode, from)
  {
    var mine, theirs := Get(own, PERMISSION), Get(definition, PERMISSION);
    if mine.Some? && theirs.Some? {
      OneStepSays(mine.value, theirs.value, from[1..]);
    }
  }

  lemma OneStepSays(source: Json, result: Json, path: Path)
    requires |path| == 1 && path[0].Key?
    ensures SaysItself(source, result, path, path)
            <==> var mine, theirs := Get(source, path[0].key), Get(result, path[0].key);
                 mine.Some? && theirs.Some? && Prunes(mine.value, theirs.value)
  {
    assert path[1..] == [];
  }
}
