/**
 * The whole mapping of an upstream config: its sections, the fold of `mode` over `agent`, and what its
 * report says of every key.
 */
module Import {
  import opened Optional
  import opened JsonTree
  import opened DeepMerge
  import opened Tokens
  import opened Landing
  import opened Accounts
  import opened Guarding
  import opened PermissionFold
  import opened Walks
  import opened Fields
  import opened Entries
  import opened AgentRows
  import opened Services

  datatype Kind = Agents(primary: bool) | Commands | Servers | LanguageServers | Providers

  function EntryOf(build: Build, kind: Kind, at: Place, name: string, value: Json): Carried {
    match kind
    case Agents(primary) => AgentOf(at, value, primary)
    case Commands => CommandOf(at, value)
    case Servers => ServerOf(build, at, value)
    case LanguageServers => LspOf(at, name, value)
    case Providers => ProviderOf(build, at, name, value)
  }

  function SectionField(build: Build, kind: Kind, at: Place): Field {
    (before: seq<Entry>, entry: Entry) =>
      Set(entry.key, EntryOf(build, kind, at.Child(entry.key), entry.key, entry.value))
  }

  /** The entries that came across, in the order they were spelled; no key at all when none did. */
  function SectionOf(build: Build, kind: Kind, at: Place, value: Json): Carried {
    if kind.LanguageServers? && value.Bool? then Carried(Some(value), [Mapped(at.from, at.to)])
    else if !value.Object? then Carried(None, [Skipped(at.from, if kind.Providers? then Catalog else Malformed)])
    else
      var all := Walk(SectionField(build, kind, at), false, value.entries);
      Carried(Unless(Present(Keys(value.entries), all.writes)), all.rows)
  }

  /** Whether a command says what it sends. */
  predicate HasTemplate(command: Json) {
    var template := Get(command, TEMPLATE);
    template.Some? && template.value.Str? && !OnlyToken(template.value.text)
  }

  /** A command comes across exactly when it says what it sends. */
  lemma CommandNeedsTemplate(at: Place, value: Json)
    requires WellFormed(value)
    ensures CommandOf(at, value).value.Some? <==> HasTemplate(value)
  {
    if value.Object? {
      var field, entries := CommandField(at), value.entries;
      var all := Walk(field, false, entries);
      assert entries[..|entries|] == entries;
      forall i | 0 <= i < |entries|
        ensures OwnSlots(field(entries[..i], entries[i]), SelfOwned(), entries[..i], entries[i])
        ensures SlotsIn(field(entries[..i], entries[i]), COMMAND_ORDER)
      {
        CommandKeyPlain(at, value, i, None);
      }
      WalkSlots(field, false, SelfOwned(), entries, |entries|);
      var i := IndexOf(entries, TEMPLATE);
      if i < |entries| {
        WritesStay(field, false, SelfOwned(), entries, |entries|, i);
        assert COMMAND_ORDER[0] == TEMPLATE;
        assert TEMPLATE in field(entries[..i], entries[i]).writes.Keys;
        if entries[i].value.Str? {
          GuardRefusesTokens(entries[i].value.text);
        }
      }
      PresentFinds(COMMAND_ORDER, all.writes, TEMPLATE);
    }
  }

  /** Whether an entry is one whose rows may not be taken at their word: a command left out for its template. */
  predicate Untemplated(kind: Kind, value: Json) {
    kind.Commands? && value.Object? && !HasTemplate(value)
  }

  predicate InPlace(row: Row, at: Place) {
    row.Mapped? ==> Beneath(at.to, row.to)
  }

  lemma CommandRowsInPlace(at: Place, value: Json)
    ensures EachRow(CommandOf(at, value).rows, row => InPlace(row, at))
  {
    if value.Object? {
      var field, entries := CommandField(at), value.entries;
      assert entries[..|entries|] == entries;
      forall i | 0 <= i < |entries| ensures EachRow(field(entries[..i], entries[i]).rows, row => InPlace(row, at)) {
        assert at.Child(entries[i].key).to[..|at.to|] == at.to;
      }
      WalkRows(field, false, entries, |entries|, row => InPlace(row, at));
    }
  }

  lemma EntryInPlace(build: Build, kind: Kind, at: Place, name: string, value: Json)
    requires WellFormed(value)
    ensures forall row <- EntryOf(build, kind, at, name, value).rows :: InPlace(row, at)
  {
    var carried := EntryOf(build, kind, at, name, value);
    if kind.Commands? {
      CommandRowsInPlace(at, value);
      forall row <- carried.rows ensures InPlace(row, at) {
        var i :| 0 <= i < |carried.rows| && carried.rows[i] == row;
        assert (row => InPlace(row, at))(carried.rows[i]);
      }
    } else {
      EntryTold(build, kind, at, name, value);
      forall row <- carried.rows ensures InPlace(row, at) {
        assert Honest(row, at, value, carried.value);
      }
    }
  }

  lemma EntryTold(build: Build, kind: Kind, at: Place, name: string, value: Json)
    requires WellFormed(value)
    ensures Accounted(EntryOf(build, kind, at, name, value).rows, at.from, value)
    ensures AllSourced(EntryOf(build, kind, at, name, value).rows, at, value)
    ensures !Untemplated(kind, value) ==> Told(EntryOf(build, kind, at, name, value), at, value)
  {
    match kind
    case Agents(primary) => AgentTold(at, value, primary); SourcedWhenTold(AgentOf(at, value, primary), at, value);
    case Commands => CommandTold(at, value); CommandNeedsTemplate(at, value);
    case Servers => ServerTold(build, at, value); SourcedWhenTold(ServerOf(build, at, value), at, value);
    case LanguageServers => LspTold(at, name, value); SourcedWhenTold(LspOf(at, name, value), at, value);
    case Providers =>
      ProviderTold(build, at, name, value); SourcedWhenTold(ProviderOf(build, at, name, value), at, value);
  }

  lemma SectionAccounts(build: Build, kind: Kind, at: Place, value: Json)
    requires WellFormed(value)
    ensures Accounted(SectionOf(build, kind, at, value).rows, at.from, value)
  {
    var rows := SectionOf(build, kind, at, value).rows;
    if value.Object? {
      var field, entries := SectionField(build, kind, at), value.entries;
      forall i | 0 <= i < |entries| ensures Accounted(rows, at.from + [Key(entries[i].key)], entries[i].value) {
        EntryTold(build, kind, at.Child(entries[i].key), entries[i].key, entries[i].value);
        WalkIncludes(field, false, entries, i, at.from + [Key(entries[i].key)], entries[i].value);
      }
    } else {
      assert rows[0].from == at.from;
    }
  }

  lemma SectionOwns(build: Build, kind: Kind, at: Place, value: Json)
    requires WellFormed(value) && value.Object?
    ensures AllOwnSlots(SectionField(build, kind, at), SelfOwned(), value.entries)
  {
    forall i | 0 <= i < |value.entries|
      ensures OwnSlots(SectionField(build, kind, at)(value.entries[..i], value.entries[i]), SelfOwned(),
                       value.entries[..i], value.entries[i])
    {
      NotYet(value.entries, i);
    }
  }

  /** Under each name, what the section holds is what its entry became. */
  lemma SectionFinds(build: Build, kind: Kind, at: Place, value: Json, name: string)
    requires WellFormed(value) && value.Object?
    ensures var kept := SectionOf(build, kind, at, value).value;
            var spelled := Find(value.entries, name);
            (if kept.Some? then Get(kept.value, name) else None)
            == if spelled.Some? then EntryOf(build, kind, at.Child(name), name, spelled.value).value else None
  {
    var field, entries := SectionField(build, kind, at), value.entries;
    var all := Walk(field, false, entries);
    assert entries[..|entries|] == entries;
    SectionOwns(build, kind, at, value);
    PresentFinds(Keys(entries), all.writes, name);
    HasKeys(entries, name);
    var i := IndexOf(entries, name);
    if i < |entries| {
      WritesStay(field, false, SelfOwned(), entries, |entries|, i);
      assert name in field(entries[..i], entries[i]).writes.Keys;
    }
  }

  /** A row about an entry of a section whose name is one of `names`. */
  predicate About(row: Row, at: Place, names: set<string>) {
    |row.from| > |at.from| && row.from[|at.from|].Key? && row.from[|at.from|].key in names
  }

  /** A row about an entry of a section, which if it landed at all did so under the entry's own name. */
  predicate Under(row: Row, at: Place) {
    |row.from| > |at.from| && (row.Mapped? ==> Beneath(at.to + [row.from[|at.from|]], row.to))
  }

  /** One about an agent of its own has one of the shapes an agent's rows have. */
  predicate ShapedUnder(row: Row, kind: Kind, at: Place, source: Json)
    requires Under(row, at)
  {
    kind == Agents(false) && row.Mapped? ==>
      && row.from[|at.from|].Key? && Get(source, row.from[|at.from|].key).Some?
      && AgentShape(Get(source, row.from[|at.from|].key).value, row.from[|at.from| + 1..], row.to[|at.to| + 1..])
  }

  ghost predicate HonestBut(row: Row, kind: Kind, at: Place, source: Json, grown: Option<Json>, names: set<string>) {
    Sourced(row, at, source) && Under(row, at) && ShapedUnder(row, kind, at, source)
      && (Honest(row, at, source, grown) || About(row, at, names))
  }

  lemma EntryShaped(build: Build, kind: Kind, at: Place, key: string, source: Json, child: Json, row: Row)
    requires Get(source, key) == Some(child) && row in EntryOf(build, kind, at.Child(key), key, child).rows
    requires Under(row, at) && row.from[|at.from|] == Key(key)
    ensures ShapedUnder(row, kind, at, source)
  {
    if kind == Agents(false) && row.Mapped? {
      RowsAreShaped(at.Child(key), child);
      assert Shaped(row, at.Child(key), child);
    }
  }

  /** What an entry became, when its rows may be taken at their word, is in `grown` under its name. */
  ghost predicate EntryHeld(build: Build, kind: Kind, at: Place, entry: Entry, grown: Option<Json>) {
    && !Untemplated(kind, entry.value)
    && var carried := EntryOf(build, kind, at.Child(entry.key), entry.key, entry.value).value;
       carried.Some? ==> grown.Some? && Get(grown.value, entry.key) == carried
  }

  /** The rows of a section are honest about any value that holds its entries, those under `names` apart. */
  lemma SectionHonest(build: Build, kind: Kind, at: Place, value: Json, grown: Option<Json>, names: set<string>)
    requires WellFormed(value) && value.Object?
    requires forall entry <- value.entries :: entry.key in names || EntryHeld(build, kind, at, entry, grown)
    ensures EachRow(SectionOf(build, kind, at, value).rows, row => HonestBut(row, kind, at, value, grown, names))
  {
    var field, entries := SectionField(build, kind, at), value.entries;
    var good := row => HonestBut(row, kind, at, value, grown, names);
    assert entries[..|entries|] == entries;
    forall i | 0 <= i < |entries| ensures EachRow(field(entries[..i], entries[i]).rows, good) {
      var key, child := entries[i].key, entries[i].value;
      var inner := at.Child(key);
      var carried := EntryOf(build, kind, inner, key, child);
      NotYet(entries, i);
      EntryTold(build, kind, inner, key, child);
      SourcedOfChild(carried.rows, inner.from, inner.to, at, key, value, child);
      EntryInPlace(build, kind, inner, key, child);
      forall j | 0 <= j < |carried.rows|
        ensures Under(carried.rows[j], at) && carried.rows[j].from[|at.from|] == Key(key)
        ensures ShapedUnder(carried.rows[j], kind, at, value)
      {
        assert Sourced(carried.rows[j], inner, child) && InPlace(carried.rows[j], inner);
        assert carried.rows[j].from[|at.from|] == inner.from[|at.from|];
        EntryShaped(build, kind, at, key, value, child, carried.rows[j]);
      }
      assert entries[i] in entries;
      if key in names {
        assert forall j :: 0 <= j < |carried.rows| ==> About(carried.rows[j], at, names);
      } else {
        AllHonestOfChild(carried.rows, at, key, value, child, carried.value, grown);
      }
    }
    WalkRows(field, false, entries, |entries|, good);
  }

  // The root.

  const INSTRUCTIONS := "instructions"
  const MCP := "mcp"
  const LSP := "lsp"
  const PROVIDER := "provider"
  const SNAPSHOT := "snapshot"
  const TEXT_KEYS := ["model", "small_model", "default_agent", "theme", "shell"]

  const ROOT_ORDER := TEXT_KEYS + [INSTRUCTIONS, PERMISSION, AGENT, COMMAND, MCP, PROVIDER, LSP, SNAPSHOT]

  const MODE_PLACE := Place([Key(MODE)], [Key(AGENT)])

  /** Why a top-level key that is carried nowhere was left out. */
  function WhySkipped(key: string): Reason {
    if key == "$schema" then Unpublished
    else if key == "compaction" then Deferred
    else if key in ["disabled_providers", "enabled_providers"] then Catalog
    else if key in ["keybinds", "tui"] then Incompatible
    else if key in [
      "attachment", "autoshare", "autoupdate", "enterprise", "experimental", "formatter", "layout", "logLevel",
      "plugin",
      "reference", "references", "server", "share", "skills", "subagent_depth", "tool_output", "username", "watcher"]
    then Unsupported
    else UnknownKey
  }

  function SectionNamed(key: string): Option<Kind> {
    if key == AGENT then Some(Agents(false))
    else if key == COMMAND then Some(Commands)
    else if key == MCP then Some(Servers)
    else if key == LSP then Some(LanguageServers)
    else if key == PROVIDER then Some(Providers)
    else None
  }

  function RootKey(build: Build, config: Json, before: seq<Entry>, entry: Entry): Effect {
    var child, key, value := ROOT.Child(entry.key), entry.key, entry.value;
    if key in TEXT_KEYS then Set(key, Text(child, value))
    else if key == INSTRUCTIONS then Set(key, Instructions(child, value))
    else if key == PERMISSION || key == TOOLS then
      if FoldedAlready(before) then NOTHING
      else Set(PERMISSION, PermissionOf(ROOT, Get(config, TOOLS), Get(config, PERMISSION)))
    else if SectionNamed(key).Some? then Set(key, SectionOf(build, SectionNamed(key).value, child, value))
    else if key == MODE then NOTHING
    else if key == SNAPSHOT then Set(key, Flag(child, value))
    else Skip(child, WhySkipped(key))
  }

  function RootField(build: Build, config: Json): Field {
    (before, entry) => RootKey(build, config, before, entry)
  }

  /** Each of `theirs` put over `mine`. */
  function InsertAll(mine: seq<Entry>, theirs: seq<Entry>): seq<Entry> {
    if theirs == [] then mine
    else
      var last := theirs[|theirs| - 1];
      Insert(InsertAll(mine, theirs[..|theirs| - 1]), last.key, last.value)
  }

  function Modes(build: Build, config: Json): Carried {
    match Get(config, MODE)
    case None => Carried(None, [])
    case Some(value) => SectionOf(build, Agents(true), MODE_PLACE, value)
  }

  function RootWalk(build: Build, config: Json): Effect
    requires config.Object?
  {
    Walk(RootField(build, config), false, config.entries)
  }

  function FinalAgents(build: Build, config: Json): Option<Json>
    requires config.Object?
  {
    Unless(InsertAll(EntriesIn(Held(RootWalk(build, config).writes, AGENT)), EntriesIn(Modes(build, config).value)))
  }

  /** The document built and the rows written for a whole config. */
  function ImportOf(build: Build, config: Json): (Json, seq<Row>)
    requires config.Object?
  {
    var all := RootWalk(build, config);
    (Object(Present(ROOT_ORDER, all.writes[AGENT := FinalAgents(build, config)])), all.rows + Modes(build, config).rows)
  }

  // Every scalar is accounted for.

  lemma RootKeyAccounts(build: Build, config: Json, i: nat)
    requires config.Object? && WellFormed(config) && i < |config.entries|
    requires config.entries[i].key !in [PERMISSION, TOOLS, MODE]
    ensures Accounted(RootKey(build, config, config.entries[..i], config.entries[i]).rows, [Key(config.entries[i].key)],
                      config.entries[i].value)
  {
    var key, value := config.entries[i].key, config.entries[i].value;
    var child := ROOT.Child(key);
    assert child.from == [Key(key)];
    NotYet(config.entries, i);
    if key in TEXT_KEYS {
      TextTold(child, value);
    } else if key == INSTRUCTIONS {
      InstructionsTold(child, value);
    } else if SectionNamed(key).Some? {
      SectionAccounts(build, SectionNamed(key).value, child, value);
    } else if key == SNAPSHOT {
      FlagTold(child, value);
    } else {
      SkipTold(key, WhySkipped(key), ROOT, config, value, None);
    }
  }

  lemma FoldEffect(build: Build, config: Json, j: nat)
    requires config.Object? && j < |config.entries| && !FoldedAlready(config.entries[..j])
    requires config.entries[j].key == PERMISSION || config.entries[j].key == TOOLS
    ensures RootKey(build, config, config.entries[..j], config.entries[j])
            == Set(PERMISSION, PermissionOf(ROOT, Get(config, TOOLS), Get(config, PERMISSION)))
  {
    assert PERMISSION[0] == 'p' && |PERMISSION| == 10 && TOOLS[0] == 't' && |TOOLS| == 5;
    assert TEXT_KEYS[0][0] == 'm' && TEXT_KEYS[1][0] == 's' && TEXT_KEYS[2][0] == 'd' && |TEXT_KEYS[3]| == 5
        && TEXT_KEYS[3][1] == 'h' && TEXT_KEYS[4][0] == 's';
    assert TOOLS[1] == 'o' && INSTRUCTIONS[0] == 'i';
  }

  lemma RootFoldAccounts(build: Build, config: Json, i: nat)
    requires config.Object? && WellFormed(config) && i < |config.entries|
    requires config.entries[i].key == PERMISSION || config.entries[i].key == TOOLS
    ensures Accounted(RootWalk(build, config).rows, [Key(config.entries[i].key)], config.entries[i].value)
  {
    var j := FoldedAt(config.entries, i);
    FoldTold(ROOT, config, None);
    NotYet(config.entries, i);
    FoldEffect(build, config, j);
    assert ROOT.from + [Key(TOOLS)] == [Key(TOOLS)] && ROOT.from + [Key(PERMISSION)] == [Key(PERMISSION)];
    WalkIncludes(RootField(build, config), false, config.entries, j, [Key(config.entries[i].key)],
                 config.entries[i].value);
  }

  lemma ImportAccounts(build: Build, config: Json)
    requires config.Object? && WellFormed(config)
    ensures Accounted(ImportOf(build, config).1, [], config)
  {
    var field, entries := RootField(build, config), config.entries;
    var all, modes := RootWalk(build, config), Modes(build, config);
    forall i | 0 <= i < |entries| ensures Accounted(all.rows + modes.rows, [Key(entries[i].key)], entries[i].value) {
      NotYet(entries, i);
      if entries[i].key == MODE {
        SectionAccounts(build, Agents(true), MODE_PLACE, entries[i].value);
        AccountedMore(modes.rows, all.rows, [Key(MODE)], entries[i].value);
      } else {
        if entries[i].key == PERMISSION || entries[i].key == TOOLS {
          RootFoldAccounts(build, config, i);
        } else {
          RootKeyAccounts(build, config, i);
          WalkIncludes(field, false, entries, i, [Key(entries[i].key)], entries[i].value);
        }
        AccountedMore(all.rows, modes.rows, [Key(entries[i].key)], entries[i].value);
      }
    }
    forall i | 0 <= i < |entries|
      ensures Accounted(all.rows + modes.rows, [] + [Key(entries[i].key)], entries[i].value)
    {
      assert [] + [Key(entries[i].key)] == [Key(entries[i].key)];
    }
  }

  /** Every scalar of a config has a row that names it or a value it sits in, whatever was refused or folded. */
  lemma EveryScalarHasARow(build: Build, config: Json, path: Path)
    requires config.Object? && WellFormed(config)
    requires At(config, path).Some? && Scalar(At(config, path).value)
    ensures var rows := ImportOf(build, config).1;
            exists i :: 0 <= i < |rows| && Beneath(rows[i].from, path)
  {
    var rows := ImportOf(build, config).1;
    ImportAccounts(build, config);
    EveryLeafHasARow(rows, [], config, path);
    assert [] + path == path;
  }

  // What the rows say landed did.

  /** Commands that were spelled and left out for having no template. */
  function RefusedCommands(config: Json): set<string> {
    var commands := Get(config, COMMAND);
    if commands.Some? && commands.value.Object?
    then set entry <- commands.value.entries | Untemplated(Commands, entry.value) :: entry.key
    else {}
  }

  /** Agents that a `mode` of the same name takes the place of. */
  function ReplacedAgents(config: Json): set<string> {
    var modes := Get(config, MODE);
    if modes.Some? && modes.value.Object?
    then set entry <- modes.value.entries | entry.value.Object? :: entry.key
    else {}
  }

  /** A row about an entry of the section `key` under one of `names`. */
  predicate OfEntry(row: Row, key: string, names: set<string>) {
    |row.from| >= 2 && row.from[0] == Key(key) && row.from[1].Key? && row.from[1].key in names
  }

  /** The names of a section's entries whose rows are excused. */
  function ExcusedNames(config: Json, key: string): set<string> {
    if key == COMMAND then RefusedCommands(config) else if key == AGENT then ReplacedAgents(config) else {}
  }

  /** A row about a command left out for its template, or about an agent a mode replaced. */
  predicate Excused(row: Row, config: Json) {
    OfEntry(row, COMMAND, RefusedCommands(config)) || OfEntry(row, AGENT, ReplacedAgents(config))
  }

  /**
   * A command or an agent that is said to have landed is said to have under its own name, an agent in one of
   * its shapes.
   */
  predicate UnderItsName(row: Row, config: Json) {
    row.Mapped? && |row.from| >= 2 && (row.from[0] == Key(COMMAND) || row.from[0] == Key(AGENT)) ==>
      && Beneath(row.from[..2], row.to)
      && (row.from[0] == Key(AGENT) ==>
            && row.from[1].Key? && Get2(config, AGENT, row.from[1].key).Some?
            && AgentShape(Get2(config, AGENT, row.from[1].key).value, row.from[2..], row.to[2..]))
  }

  ghost predicate RootHonest(row: Row, config: Json, document: Json) {
    Sourced(row, ROOT, config) && UnderItsName(row, config)
      && (Excused(row, config) || Honest(row, ROOT, config, Some(document)))
  }

  lemma RootKeyShape(build: Build, config: Json, before: seq<Entry>, entry: Entry)
    ensures var effect := RootKey(build, config, before, entry);
            && effect.refused.None?
            && (|| effect.writes.Keys == {}
                || (effect.writes.Keys == {entry.key} && entry.key != PERMISSION && entry.key in ROOT_ORDER)
                || (effect.writes.Keys == {PERMISSION} && entry.key in [PERMISSION, TOOLS] && !FoldedAlready(before)))
  {
    RootOrderHolds();
    var key := entry.key;
    if key in TEXT_KEYS {
    } else if key == INSTRUCTIONS || key == SNAPSHOT {
    } else if SectionNamed(key).Some? {
      assert key in [AGENT, COMMAND, MCP, LSP, PROVIDER];
    }
  }

  lemma RootOwns(build: Build, config: Json, i: nat)
    requires config.Object? && WellFormed(config) && i < |config.entries|
    ensures var effect := RootKey(build, config, config.entries[..i], config.entries[i]);
            OwnSlots(effect, FoldOwned(), config.entries[..i], config.entries[i]) && SlotsIn(effect, ROOT_ORDER)
              && effect.refused.None?
  {
    NotYet(config.entries, i);
    RootKeyShape(build, config, config.entries[..i], config.entries[i]);
    RootOrderHolds();
  }

  lemma RootOrderHolds()
    ensures forall key <- TEXT_KEYS + [INSTRUCTIONS, PERMISSION, AGENT, COMMAND, MCP, PROVIDER, LSP, SNAPSHOT] ::
            key in ROOT_ORDER
    ensures PERMISSION !in TEXT_KEYS && PERMISSION !in [INSTRUCTIONS, AGENT, COMMAND, MCP, PROVIDER, LSP, SNAPSHOT]
    ensures INSTRUCTIONS in ROOT_ORDER && PERMISSION in ROOT_ORDER && AGENT in ROOT_ORDER && COMMAND in ROOT_ORDER
    ensures MCP in ROOT_ORDER && PROVIDER in ROOT_ORDER && LSP in ROOT_ORDER && SNAPSHOT in ROOT_ORDER
  {
    var order := ROOT_ORDER;
    assert order[5] == INSTRUCTIONS && order[6] == PERMISSION && order[7] == AGENT && order[8] == COMMAND
        && order[9] == MCP
        && order[10] == PROVIDER && order[11] == LSP && order[12] == SNAPSHOT;
    assert PERMISSION[0] == 'p' && PERMISSION[1] == 'e' && PROVIDER[1] == 'r';
    assert TEXT_KEYS[0][0] == 'm' && TEXT_KEYS[1][0] == 's' && TEXT_KEYS[2][0] == 'd' && TEXT_KEYS[3][0] == 't'
        && TEXT_KEYS[4][0] == 's';
  }

  lemma RootWalkHolds(build: Build, config: Json)
    requires config.Object? && WellFormed(config)
    ensures AllOwnSlots(RootField(build, config), FoldOwned(), config.entries)
    ensures SlotsIn(RootWalk(build, config), ROOT_ORDER)
  {
    var field, entries := RootField(build, config), config.entries;
    assert entries[..|entries|] == entries;
    forall i | 0 <= i < |entries|
      ensures OwnSlots(field(entries[..i], entries[i]), FoldOwned(), entries[..i], entries[i])
      ensures SlotsIn(field(entries[..i], entries[i]), ROOT_ORDER)
    {
      RootOwns(build, config, i);
    }
    WalkSlotsIn(field, false, entries, ROOT_ORDER, |entries|);
  }

  /** What the document holds under a top-level key. */
  lemma RootFinds(build: Build, config: Json, slot: string)
    requires config.Object? && WellFormed(config)
    ensures Get(ImportOf(build, config).0, slot)
            == if slot == AGENT then FinalAgents(build, config) else Held(RootWalk(build, config).writes, slot)
  {
    RootWalkHolds(build, config);
    RootOrderHolds();
    PresentFinds(ROOT_ORDER, RootWalk(build, config).writes[AGENT := FinalAgents(build, config)], slot);
  }

  lemma RootHolds(build: Build, config: Json, i: nat, slot: string)
    requires config.Object? && WellFormed(config) && i < |config.entries|
    requires slot in RootKey(build, config, config.entries[..i], config.entries[i]).writes
    ensures Held(RootWalk(build, config).writes, slot)
            == RootKey(build, config, config.entries[..i], config.entries[i]).writes[slot]
  {
    RootWalkHolds(build, config);
    assert config.entries[..|config.entries|] == config.entries;
    WritesStay(RootField(build, config), false, FoldOwned(), config.entries, |config.entries|, i);
    assert slot in RootField(build, config)(config.entries[..i], config.entries[i]).writes.Keys;
  }

  lemma {:induction false} InsertAllFinds(mine: seq<Entry>, theirs: seq<Entry>, name: string)
    requires UniqueKeys(theirs)
    ensures Find(InsertAll(mine, theirs), name) == if Has(theirs, name) then Find(theirs, name) else Find(mine, name)
  {
    if theirs != [] {
      var n := |theirs| - 1;
      InsertAllFinds(mine, theirs[..n], name);
      InsertFinds(InsertAll(mine, theirs[..n]), theirs[n].key, theirs[n].value, name);
      assert theirs == theirs[..n] + [theirs[n]];
      FindAppend(theirs[..n], [theirs[n]], name);
      NotYet(theirs, n);
    }
  }

  lemma {:induction false} InsertAllUnique(mine: seq<Entry>, theirs: seq<Entry>)
    requires UniqueKeys(mine)
    ensures UniqueKeys(InsertAll(mine, theirs))
  {
    if theirs != [] {
      InsertAllUnique(mine, theirs[..|theirs| - 1]);
      InsertKeepsUnique(InsertAll(mine, theirs[..|theirs| - 1]), theirs[|theirs| - 1].key, theirs[|theirs| - 1].value);
    }
  }

  lemma SectionUnique(build: Build, kind: Kind, at: Place, value: Json)
    requires WellFormed(value)
    ensures UniqueKeys(EntriesIn(SectionOf(build, kind, at, value).value))
  {
    if value.Object? {
      PresentUnique(Keys(value.entries), Walk(SectionField(build, kind, at), false, value.entries).writes);
    }
  }

  lemma ModesUnique(build: Build, config: Json)
    requires WellFormed(config)
    ensures UniqueKeys(EntriesIn(Modes(build, config).value))
  {
    if Get(config, MODE).Some? {
      SectionUnique(build, Agents(true), MODE_PLACE, Get(config, MODE).value);
    }
  }

  /** A `mode` entry that is an object always becomes an agent, whatever it holds. */
  lemma ModeAlwaysAgent(at: Place, value: Json)
    requires WellFormed(value)
    ensures AgentOf(at, value, true).value.Some? <==> value.Object?
    ensures value.Object? ==> Get(AgentOf(at, value, true).value.value, MODE) == Some(Str(PRIMARY))
  {
    if value.Object? {
      AgentDelivers(at, value, true);
    }
  }

  lemma ModesFind(build: Build, config: Json, name: string)
    requires WellFormed(config)
    ensures Has(EntriesIn(Modes(build, config).value), name) <==> name in ReplacedAgents(config)
  {
    var modes := Get(config, MODE);
    if modes.Some? && modes.value.Object? {
      var value := modes.value;
      SectionFinds(build, Agents(true), MODE_PLACE, value, name);
      var spelled := Find(value.entries, name);
      if spelled.Some? {
        ModeAlwaysAgent(MODE_PLACE.Child(name), spelled.value);
        assert value.entries[IndexOf(value.entries, name)] in value.entries;
      }
      forall entry <- value.entries | entry.key == name ensures spelled == Some(entry.value) {
        var i :| 0 <= i < |value.entries| && value.entries[i] == entry;
        IndexOfUnique(value.entries, i);
      }
    }
  }

  /** Each agent of the document: a mode's definition where a mode has that name, and otherwise the agent's own. */
  lemma AgentsAfterModes(build: Build, config: Json, name: string)
    requires config.Object? && WellFormed(config)
    ensures var agents, modes := Held(RootWalk(build, config).writes, AGENT), Modes(build, config).value;
            Find(EntriesIn(Get(ImportOf(build, config).0, AGENT)), name)
            == Find(EntriesIn(if name in ReplacedAgents(config) then modes else agents), name)
  {
    RootFinds(build, config, AGENT);
    ModesUnique(build, config);
    ModesFind(build, config, name);
    InsertAllFinds(EntriesIn(Held(RootWalk(build, config).writes, AGENT)), EntriesIn(Modes(build, config).value), name);
  }

  lemma LiftToRoot(row: Row, kind: Kind, key: string, config: Json, value: Json, held: Option<Json>, document: Json)
    requires key == AGENT ==> kind == Agents(false)
    requires Get(config, key) == Some(value)
             && HonestBut(row, kind, ROOT.Child(key), value, held, ExcusedNames(config, key))
    requires held.Some? ==> Get(document, key) == held
    ensures RootHonest(row, config, document)
  {
    var at := ROOT.Child(key);
    SourcedOfChild([row], at.from, at.to, ROOT, key, config, value);
    assert [row][0] == row;
    assert row.from[0] == at.from[0] == Key(key);
    assert at.to + [row.from[1]] == [Key(key), row.from[1]];
    assert row.from[..2] == [row.from[0], row.from[1]];
    if Honest(row, at, value, held) {
      HonestOfChild(row, ROOT, key, config, value, held, Some(document));
    }
  }

  /** The `i`th key is a section, and does what a section does. */
  ghost predicate SectionAt(build: Build, config: Json, i: nat)
    requires config.Object? && i < |config.entries|
  {
    var key, value := config.entries[i].key, config.entries[i].value;
    && SectionNamed(key).Some?
    && RootKey(build, config, config.entries[..i], config.entries[i])
       == Set(key, SectionOf(build, SectionNamed(key).value, ROOT.Child(key), value))
  }

  /** What an entry of a section became is in the document under its name, unless a mode took the name. */
  lemma RootEntryHeld(build: Build, config: Json, i: nat, entry: Entry)
    requires config.Object? && WellFormed(config) && i < |config.entries|
    requires SectionAt(build, config, i) && config.entries[i].value.Object? && entry in config.entries[i].value.entries
    requires config.entries[i].key == AGENT ==> entry.key !in ReplacedAgents(config)
    ensures var key := config.entries[i].key;
            var held := Get(ImportOf(build, config).0, key);
            var carried :=
              EntryOf(build, SectionNamed(key).value, ROOT.Child(key).Child(entry.key), entry.key, entry.value).value;
            carried.Some? ==> held.Some? && Get(held.value, entry.key) == carried
  {
    var key, value := config.entries[i].key, config.entries[i].value;
    var j :| 0 <= j < |value.entries| && value.entries[j] == entry;
    NotYet(value.entries, j);
    RootHolds(build, config, i, key);
    SectionFinds(build, SectionNamed(key).value, ROOT.Child(key), value, entry.key);
    HeldInTheDocument(build, config, key, entry.key);
  }

  /** What a section was filled with under a name is in the document, unless a mode took the name. */
  lemma HeldInTheDocument(build: Build, config: Json, key: string, name: string)
    requires config.Object? && WellFormed(config) && (key == AGENT ==> name !in ReplacedAgents(config))
    ensures var before, after := Held(RootWalk(build, config).writes, key), Get(ImportOf(build, config).0, key);
            before.Some? && Get(before.value, name).Some? ==>
              after.Some? && Get(after.value, name) == Get(before.value, name)
  {
    RootFinds(build, config, key);
    if key == AGENT {
      AgentsAfterModes(build, config, name);
    }
  }

  lemma NotExcused(config: Json, key: string, value: Json, entry: Entry)
    requires Get(config, key) == Some(value) && value.Object? && entry in value.entries && SectionNamed(key).Some?
    requires entry.key !in ExcusedNames(config, key)
    ensures !Untemplated(SectionNamed(key).value, entry.value)
    ensures key == AGENT ==> entry.key !in ReplacedAgents(config)
  {
    assert |AGENT| == 5 && |COMMAND| == 7;
  }

  lemma RootEntriesHeld(build: Build, config: Json, i: nat)
    requires config.Object? && WellFormed(config) && i < |config.entries|
    requires SectionAt(build, config, i) && config.entries[i].value.Object?
    ensures var key := config.entries[i].key;
            forall entry <- config.entries[i].value.entries :: entry.key in ExcusedNames(config, key)
              || EntryHeld(build, SectionNamed(key).value, ROOT.Child(key), entry, Get(ImportOf(build, config).0, key))
  {
    var key, value := config.entries[i].key, config.entries[i].value;
    NotYet(config.entries, i);
    forall entry <- value.entries | entry.key !in ExcusedNames(config, key)
      ensures EntryHeld(build, SectionNamed(key).value, ROOT.Child(key), entry, Get(ImportOf(build, config).0, key))
    {
      NotExcused(config, key, value, entry);
      RootEntryHeld(build, config, i, entry);
    }
  }

  lemma RootSectionHonest(build: Build, config: Json, i: nat)
    requires config.Object? && WellFormed(config) && i < |config.entries|
    requires SectionAt(build, config, i) && config.entries[i].value.Object?
    ensures var effect := RootKey(build, config, config.entries[..i], config.entries[i]);
            EachRow(effect.rows, row => RootHonest(row, config, ImportOf(build, config).0))
  {
    var key, value, document := config.entries[i].key, config.entries[i].value, ImportOf(build, config).0;
    NotYet(config.entries, i);
    RootEntriesHeld(build, config, i);
    SectionLifted(build, SectionNamed(key).value, key, config, value, document);
  }

  lemma SectionLifted(build: Build, kind: Kind, key: string, config: Json, value: Json, document: Json)
    requires key == AGENT ==> kind == Agents(false)
    requires Get(config, key) == Some(value) && WellFormed(value) && value.Object?
    requires forall entry <- value.entries ::
               entry.key in ExcusedNames(config, key)
                 || EntryHeld(build, kind, ROOT.Child(key), entry, Get(document, key))
    ensures EachRow(SectionOf(build, kind, ROOT.Child(key), value).rows, row => RootHonest(row, config, document))
  {
    var rows, held, names := SectionOf(build, kind, ROOT.Child(key), value).rows, Get(document, key),
      ExcusedNames(config, key);
    SectionHonest(build, kind, ROOT.Child(key), value, held, names);
    forall k | 0 <= k < |rows| ensures RootHonest(rows[k], config, document) {
      assert HonestBut(rows[k], kind, ROOT.Child(key), value, held, names);
      LiftToRoot(rows[k], kind, key, config, value, held, document);
    }
  }

  /** A top-level key carried as one value. */
  predicate PlainAtRoot(key: string) {
    key in TEXT_KEYS || key == INSTRUCTIONS || key == SNAPSHOT
  }

  lemma PlainIsNoSection(key: string)
    requires PlainAtRoot(key)
    ensures key != AGENT && key != COMMAND
  {
    assert |AGENT| == 5 && |COMMAND| == 7 && |INSTRUCTIONS| == 12 && |SNAPSHOT| == 8;
    assert TEXT_KEYS[0][0] == 'm' && |TEXT_KEYS[1]| == 11 && |TEXT_KEYS[2]| == 13 && TEXT_KEYS[3][0] == 't'
        && TEXT_KEYS[4][0] == 's';
    assert |TEXT_KEYS[0]| == 5 && |TEXT_KEYS[3]| == 5 && |TEXT_KEYS[4]| == 5;
  }

  lemma RootPlainHonest(build: Build, config: Json, i: nat, carried: Carried)
    requires config.Object? && WellFormed(config) && i < |config.entries| && PlainAtRoot(config.entries[i].key)
    requires RootKey(build, config, config.entries[..i], config.entries[i]) == Set(config.entries[i].key, carried)
    requires Told(carried, ROOT.Child(config.entries[i].key), config.entries[i].value)
    ensures EachRow(carried.rows, row => RootHonest(row, config, ImportOf(build, config).0))
  {
    var key := config.entries[i].key;
    NotYet(config.entries, i);
    RootFinds(build, config, key);
    RootHolds(build, config, i, key);
    PlainIsNoSection(key);
    PlainRowsHonest(config, key, config.entries[i].value, carried, ImportOf(build, config).0);
  }

  lemma PlainRowsHonest(config: Json, key: string, value: Json, carried: Carried, document: Json)
    requires Get(config, key) == Some(value) && Get(document, key) == carried.value
             && Told(carried, ROOT.Child(key), value)
    requires key != AGENT && key != COMMAND
    ensures EachRow(carried.rows, row => RootHonest(row, config, document))
  {
    forall i | 0 <= i < |carried.rows| ensures UnderItsName(carried.rows[i], config) {
      assert Honest(carried.rows[i], ROOT.Child(key), value, carried.value);
      assert carried.rows[i].from[0] == ROOT.Child(key).from[0] == Key(key);
    }
    SetTold(key, carried, ROOT, config, value, Some(document));
    RootAllHonest(carried.rows, config, document);
  }

  lemma RootAllHonest(rows: seq<Row>, config: Json, document: Json)
    requires AllHonest(rows, ROOT, config, Some(document))
             && forall i :: 0 <= i < |rows| ==> UnderItsName(rows[i], config)
    ensures EachRow(rows, row => RootHonest(row, config, document))
  {
    forall i | 0 <= i < |rows| ensures RootHonest(rows[i], config, document) {
      assert Honest(rows[i], ROOT, config, Some(document));
    }
  }

  lemma RootFoldHonest(build: Build, config: Json, i: nat)
    requires config.Object? && WellFormed(config) && i < |config.entries| && !FoldedAlready(config.entries[..i])
    requires config.entries[i].key == PERMISSION || config.entries[i].key == TOOLS
    ensures var effect := RootKey(build, config, config.entries[..i], config.entries[i]);
            EachRow(effect.rows, row => RootHonest(row, config, ImportOf(build, config).0))
  {
    FoldEffect(build, config, i);
    RootFinds(build, config, PERMISSION);
    RootHolds(build, config, i, PERMISSION);
    RootOrderHolds();
    FoldRowsHonest(config, ImportOf(build, config).0);
  }

  lemma FoldRowsHonest(config: Json, document: Json)
    requires config.Object? && WellFormed(config)
    requires Get(document, PERMISSION) == PermissionOf(ROOT, Get(config, TOOLS), Get(config, PERMISSION)).value
    ensures EachRow(PermissionOf(ROOT, Get(config, TOOLS), Get(config, PERMISSION)).rows,
                    row => RootHonest(row, config, document))
  {
    var carried := PermissionOf(ROOT, Get(config, TOOLS), Get(config, PERMISSION));
    FoldTold(ROOT, config, Some(document));
    FoldUnderNoName(config, carried);
    RootAllHonest(carried.rows, config, document);
  }

  /** No row of the fold is about a command or an agent: each leads to a rule, whatever else the document holds. */
  lemma FoldUnderNoName(config: Json, carried: Carried)
    requires config.Object? && WellFormed(config)
    requires carried == PermissionOf(ROOT, Get(config, TOOLS), Get(config, PERMISSION))
    ensures forall i :: 0 <= i < |carried.rows| ==> UnderItsName(carried.rows[i], config)
  {
    var alone := Object([Entry(PERMISSION, if carried.value.Some? then carried.value.value else Null)]);
    PermissionHonest(ROOT, config, Some(alone));
    assert |PERMISSION| == 10 && |COMMAND| == 7 && |AGENT| == 5 && |TOOLS| == 5 && |OPTIONS| == 7 && AGENT[0] == 'a'
        && TOOLS[0] == 't';
    assert MODE[0] == 'm' && COMMAND[0] == 'c' && OPTIONS[0] == 'o';
    forall i | 0 <= i < |carried.rows| ensures UnderItsName(carried.rows[i], config) {
      var row := carried.rows[i];
      assert Honest(row, ROOT, config, Some(alone));
      assert row.from[|ROOT.from|..] == row.from && (row.Mapped? ==> row.to[|ROOT.to|..] == row.to);
    }
  }

  lemma RootKeyHonest(build: Build, config: Json, i: nat)
    requires config.Object? && WellFormed(config) && i < |config.entries|
    ensures var effect := RootKey(build, config, config.entries[..i], config.entries[i]);
            EachRow(effect.rows, row => RootHonest(row, config, ImportOf(build, config).0))
  {
    var key, value := config.entries[i].key, config.entries[i].value;
    var child, document := ROOT.Child(key), ImportOf(build, config).0;
    var effect := RootKey(build, config, config.entries[..i], config.entries[i]);
    RootOrderHolds();
    if key in TEXT_KEYS {
      TextTold(child, value);
      RootPlainHonest(build, config, i, Text(child, value));
    } else if key == INSTRUCTIONS {
      InstructionsTold(child, value);
      RootPlainHonest(build, config, i, Instructions(child, value));
    } else if key == PERMISSION || key == TOOLS {
      if !FoldedAlready(config.entries[..i]) {
        RootFoldHonest(build, config, i);
      }
    } else if SectionNamed(key).Some? {
      RootSectionKeyHonest(build, config, i);
    } else if key == MODE {
    } else if key == SNAPSHOT {
      FlagTold(child, value);
      RootPlainHonest(build, config, i, Flag(child, value));
    } else {
      NotYet(config.entries, i);
      SkippedAtRoot(config, key, value, document);
    }
  }

  lemma SkippedAtRoot(config: Json, key: string, value: Json, document: Json)
    requires Get(config, key) == Some(value)
    ensures EachRow(Skip(ROOT.Child(key), WhySkipped(key)).rows, row => RootHonest(row, config, document))
  {
    SkipTold(key, WhySkipped(key), ROOT, config, value, Some(document));
    RootAllHonest(Skip(ROOT.Child(key), WhySkipped(key)).rows, config, document);
  }

  lemma RootSectionKeyHonest(build: Build, config: Json, i: nat)
    requires config.Object? && WellFormed(config) && i < |config.entries|
    requires SectionAt(build, config, i)
    ensures var effect := RootKey(build, config, config.entries[..i], config.entries[i]);
            EachRow(effect.rows, row => RootHonest(row, config, ImportOf(build, config).0))
  {
    var key, value := config.entries[i].key, config.entries[i].value;
    var kind, child, document := SectionNamed(key).value, ROOT.Child(key), ImportOf(build, config).0;
    var carried := SectionOf(build, kind, child, value);
    NotYet(config.entries, i);
    if value.Object? {
      RootSectionHonest(build, config, i);
    } else {
      RootFinds(build, config, key);
      RootHolds(build, config, i, key);
      OneRowAtRoot(config, key, value, carried, document);
    }
  }

  /** A section that is no object leaves one row, its own. */
  lemma OneRowAtRoot(config: Json, key: string, value: Json, carried: Carried, document: Json)
    requires Get(config, key) == Some(value) && |carried.rows| == 1 && carried.rows[0].from == [Key(key)]
    requires carried.rows[0].Mapped? ==> carried.rows[0].to == [Key(key)] && carried.value == Some(value)
    requires carried.value.Some? ==> Get(document, key) == carried.value
    ensures EachRow(carried.rows, row => RootHonest(row, config, document))
  {
    OneRowTold(carried, ROOT.Child(key), value);
    AllHonestOfChild(carried.rows, ROOT, key, config, value, carried.value, Some(document));
    RootAllHonest(carried.rows, config, document);
  }

  lemma NoneExcused(rows: seq<Row>, at: Place, source: Json, grown: Option<Json>)
    requires EachRow(rows, row => HonestBut(row, Agents(true), at, source, grown, {}))
    ensures AllHonest(rows, at, source, grown)
  {
    forall i | 0 <= i < |rows| ensures Honest(rows[i], at, source, grown) {
      assert HonestBut(rows[i], Agents(true), at, source, grown, {});
    }
  }

  lemma ModeEntryHeld(build: Build, config: Json, entry: Entry)
    requires config.Object? && WellFormed(config) && Get(config, MODE).Some?
    requires Get(config, MODE).value.Object? && entry in Get(config, MODE).value.entries
    ensures var own := EntryOf(build, Agents(true), MODE_PLACE.Child(entry.key), entry.key, entry.value).value;
            var agents := Get(ImportOf(build, config).0, AGENT);
            own.Some? ==> agents.Some? && Get(agents.value, entry.key) == own
  {
    var value := Get(config, MODE).value;
    var j :| 0 <= j < |value.entries| && value.entries[j] == entry;
    NotYet(value.entries, j);
    SectionFinds(build, Agents(true), MODE_PLACE, value, entry.key);
    AgentsAfterModes(build, config, entry.key);
    ModesFind(build, config, entry.key);
    ModeAlwaysAgent(MODE_PLACE.Child(entry.key), entry.value);
    RootFinds(build, config, AGENT);
  }

  /** The rows a `mode` wrote are honest about the agents of the document. */
  lemma ModeRowsAreHonest(build: Build, config: Json)
    requires config.Object? && WellFormed(config) && Get(config, MODE).Some?
    ensures AllHonest(Modes(build, config).rows, MODE_PLACE, Get(config, MODE).value,
                      Get(ImportOf(build, config).0, AGENT))
  {
    var value, carried := Get(config, MODE).value, Modes(build, config);
    var agents := Get(ImportOf(build, config).0, AGENT);
    if value.Object? {
      forall entry <- value.entries ensures EntryHeld(build, Agents(true), MODE_PLACE, entry, agents) {
        ModeEntryHeld(build, config, entry);
      }
      SectionHonest(build, Agents(true), MODE_PLACE, value, agents, {});
      NoneExcused(carried.rows, MODE_PLACE, value, agents);
    } else {
      OneRowTold(carried, MODE_PLACE, value);
    }
  }

  lemma ModeRowAtRoot(row: Row, config: Json, value: Json, agents: Option<Json>, document: Json)
    requires Get(config, MODE) == Some(value) && Get(document, AGENT) == agents
    requires Honest(row, MODE_PLACE, value, agents)
    ensures Honest(row, ROOT, config, Some(document))
  {
    var inner := row.from[1..];
    assert row.from[0] == MODE_PLACE.from[0] == Key(MODE);
    assert row.from[|MODE_PLACE.from|..] == inner && row.from[|ROOT.from|..] == row.from;
    if row.Mapped? {
      assert row.to[0] == MODE_PLACE.to[0] == Key(AGENT);
      assert row.to[|MODE_PLACE.to|..] == row.to[1..] && row.to[|ROOT.to|..] == row.to;
      assert |MODE| == 4 && |AGENT| == 5;
    }
  }

  lemma ModeRowsAtRoot(build: Build, config: Json)
    requires config.Object? && WellFormed(config) && Get(config, MODE).Some?
    ensures var rows := Modes(build, config).rows;
            forall i :: 0 <= i < |rows| ==> RootHonest(rows[i], config, ImportOf(build, config).0)
  {
    var rows, document := Modes(build, config).rows, ImportOf(build, config).0;
    ModeRowsAreHonest(build, config);
    assert |MODE| == 4 && |AGENT| == 5 && |COMMAND| == 7;
    forall i | 0 <= i < |rows| ensures RootHonest(rows[i], config, document) {
      assert Honest(rows[i], MODE_PLACE, Get(config, MODE).value, Get(document, AGENT));
      assert rows[i].from[0] == MODE_PLACE.from[0] == Key(MODE);
      ModeRowAtRoot(rows[i], config, Get(config, MODE).value, Get(document, AGENT), document);
    }
  }

  /**
   * Every row of an import names a key the config has; and, the two excused families apart, a key said to
   * have landed did: its destination is in the document and holds what becomes of the key.
   */
  lemma ImportIsHonest(build: Build, config: Json)
    requires config.Object? && WellFormed(config)
    ensures var (document, rows) := ImportOf(build, config);
            forall i :: 0 <= i < |rows| ==> RootHonest(rows[i], config, document)
  {
    var field, entries := RootField(build, config), config.entries;
    var document, all, modes := ImportOf(build, config).0, RootWalk(build, config), Modes(build, config);
    var good := row => RootHonest(row, config, document);
    assert entries[..|entries|] == entries;
    forall i | 0 <= i < |entries| ensures EachRow(field(entries[..i], entries[i]).rows, good) {
      RootKeyHonest(build, config, i);
    }
    WalkRows(field, false, entries, |entries|, good);
    if Get(config, MODE).Some? {
      ModeRowsAtRoot(build, config);
    }
    forall i | 0 <= i < |all.rows| ensures RootHonest(all.rows[i], config, document) {
      assert good(all.rows[i]);
    }
  }

  lemma NoSuchCommand(build: Build, config: Json, name: string, value: Json)
    requires config.Object? && WellFormed(config) && Get(config, COMMAND).Some?
    requires Get(Get(config, COMMAND).value, name) == Some(value) && Untemplated(Commands, value)
    ensures var commands := Get(ImportOf(build, config).0, COMMAND);
            commands.Some? ==> Get(commands.value, name).None?
  {
    var commands := Get(config, COMMAND).value;
    CommandNotKept(build, ROOT.Child(COMMAND), commands, name, value);
    CommandsHeld(build, config, IndexOf(config.entries, COMMAND));
  }

  lemma CommandNotKept(build: Build, at: Place, commands: Json, name: string, value: Json)
    requires WellFormed(commands) && Get(commands, name) == Some(value) && Untemplated(Commands, value)
    ensures var kept := SectionOf(build, Commands, at, commands).value;
            kept.Some? ==> Get(kept.value, name).None?
  {
    CommandNeedsTemplate(at.Child(name), value);
    SectionFinds(build, Commands, at, commands, name);
  }

  lemma NothingBelow(document: Json, section: string, name: string, to: Path)
    requires |to| >= 2 && to[0] == Key(section) && to[1] == Key(name)
    requires Get(document, section).Some? ==> Get(Get(document, section).value, name).None?
    ensures At(document, to).None?
  {
    assert to[1..][0] == Key(name);
  }

  /** The first excuse is exact: nothing a command left out for its template says landed is in the document. */
  lemma RefusedCommandLandsNowhere(build: Build, config: Json, name: string, value: Json)
    requires config.Object? && WellFormed(config) && Get(config, COMMAND).Some?
    requires Get(Get(config, COMMAND).value, name) == Some(value) && Untemplated(Commands, value)
    ensures var rows := CommandOf(ROOT.Child(COMMAND).Child(name), value).rows;
            forall i :: 0 <= i < |rows| && rows[i].Mapped? ==> At(ImportOf(build, config).0, rows[i].to).None?
  {
    var at := ROOT.Child(COMMAND).Child(name);
    CommandRowsInPlace(at, value);
    NoSuchCommand(build, config, name, value);
    LeadNowhere(ImportOf(build, config).0, COMMAND, name, CommandOf(at, value).rows);
  }

  lemma LeadNowhere(document: Json, section: string, name: string, rows: seq<Row>)
    requires EachRow(rows, row => InPlace(row, ROOT.Child(section).Child(name)))
    requires Get(document, section).Some? ==> Get(Get(document, section).value, name).None?
    ensures forall i :: 0 <= i < |rows| && rows[i].Mapped? ==> At(document, rows[i].to).None?
  {
    var at := ROOT.Child(section).Child(name);
    forall k | 0 <= k < |rows| && rows[k].Mapped? ensures At(document, rows[k].to).None? {
      assert InPlace(rows[k], at);
      assert rows[k].to[0] == at.to[0] && rows[k].to[1] == at.to[1];
      NothingBelow(document, section, name, rows[k].to);
    }
  }

  lemma CommandsHeld(build: Build, config: Json, i: nat)
    requires config.Object? && WellFormed(config) && i < |config.entries| && config.entries[i].key == COMMAND
    ensures Get(ImportOf(build, config).0, COMMAND)
            == SectionOf(build, Commands, ROOT.Child(COMMAND), config.entries[i].value).value
  {
    CommandEffect(build, config, config.entries[..i], config.entries[i].value);
    RootFinds(build, config, COMMAND);
    RootHolds(build, config, i, COMMAND);
    assert |COMMAND| == 7 && |AGENT| == 5;
  }

  lemma CommandEffect(build: Build, config: Json, before: seq<Entry>, value: Json)
    ensures RootKey(build, config, before, Entry(COMMAND, value))
            == Set(COMMAND, SectionOf(build, Commands, ROOT.Child(COMMAND), value))
  {
    assert |COMMAND| == 7 && |AGENT| == 5 && |PERMISSION| == 10 && |TOOLS| == 5 && |INSTRUCTIONS| == 12;
    assert |TEXT_KEYS[0]| == 5 && |TEXT_KEYS[1]| == 11 && |TEXT_KEYS[2]| == 13 && |TEXT_KEYS[3]| == 5
        && |TEXT_KEYS[4]| == 5;
  }

  // Which rows are true, exactly.

  /** What the mode of this name makes of the agent. */
  function ModeDefinition(config: Json, name: string): Option<Json> {
    match Get(config, MODE)
    case None => None
    case Some(modes) =>
      match Get(modes, name)
      case None => None
      case Some(value) => AgentOf(MODE_PLACE.Child(name), value, true).value
  }

  lemma ModesHold(build: Build, config: Json, name: string)
    requires WellFormed(config)
    ensures Find(EntriesIn(Modes(build, config).value), name) == ModeDefinition(config, name)
  {
    var modes := Get(config, MODE);
    if modes.Some? && modes.value.Object? {
      SectionFinds(build, Agents(true), MODE_PLACE, modes.value, name);
    }
  }

  /** An agent whose name a mode took holds the mode's definition and nothing of its own. */
  lemma ReplacedAgentHolds(build: Build, config: Json, name: string)
    requires config.Object? && WellFormed(config) && name in ReplacedAgents(config)
    ensures ModeDefinition(config, name).Some?
    ensures Get2(ImportOf(build, config).0, AGENT, name) == ModeDefinition(config, name)
  {
    ModesFind(build, config, name);
    ModesHold(build, config, name);
    AgentsAfterModes(build, config, name);
    RootFinds(build, config, AGENT);
  }

  /** So each path into such an agent leads where it leads in the mode's definition. */
  lemma ReplacedAgentAt(build: Build, config: Json, name: string, rest: Path)
    requires config.Object? && WellFormed(config) && name in ReplacedAgents(config)
    ensures ModeDefinition(config, name).Some?
    ensures At(ImportOf(build, config).0, [Key(AGENT), Key(name)] + rest)
            == At(ModeDefinition(config, name).value, rest)
  {
    ReplacedAgentHolds(build, config, name);
    var path := [Key(AGENT), Key(name)] + rest;
    assert path[2..] == rest;
    AtBelow(ImportOf(build, config).0, AGENT, name, path);
  }

  /** An agent's row, judged by the keys the mode of its name spells. */
  ghost predicate ModeSaysToo(row: Row, config: Json)
    requires row.Mapped? && |row.from| >= 2 && row.from[1].Key?
  {
    var own, mode := Get2(config, AGENT, row.from[1].key), Get2(config, MODE, row.from[1].key);
    own.Some? && mode.Some? && ModeSaysIt(own.value, mode.value, row.from[2..])
  }

  /**
   * What becomes of what a row says: nothing of a command left out, of a replaced agent what its mode says
   * too, and otherwise all that no other key overrules.
   */
  ghost predicate StaysTrue(row: Row, config: Json)
    requires row.Mapped?
  {
    if OfEntry(row, COMMAND, RefusedCommands(config)) then false
    else if OfEntry(row, AGENT, ReplacedAgents(config)) then ModeSaysToo(row, config)
    else !Superseded(config, row.from, row.to)
  }

  /** Whether what a row says landed is anywhere at all. */
  ghost predicate IsThere(row: Row, config: Json)
    requires row.Mapped?
  {
    && !OfEntry(row, COMMAND, RefusedCommands(config))
    && (OfEntry(row, AGENT, ReplacedAgents(config)) ==>
          var mode := Get2(config, MODE, row.from[1].key);
          mode.Some? && |row.to| >= 2 && ModeHas(mode.value, row.to[2..]))
  }

  lemma RefusedIsUntemplated(config: Json, name: string)
    requires WellFormed(config) && name in RefusedCommands(config)
    ensures Get2(config, COMMAND, name).Some? && Untemplated(Commands, Get2(config, COMMAND, name).value)
  {
    var commands := Get(config, COMMAND).value;
    var entry :| entry in commands.entries && entry.key == name && Untemplated(Commands, entry.value);
    var i :| 0 <= i < |commands.entries| && commands.entries[i] == entry;
    NotYet(commands.entries, i);
  }

  lemma RefusedRowLandsNowhere(build: Build, config: Json, row: Row)
    requires config.Object? && WellFormed(config) && row.Mapped?
    requires RootHonest(row, config, ImportOf(build, config).0) && OfEntry(row, COMMAND, RefusedCommands(config))
    ensures At(ImportOf(build, config).0, row.to).None?
  {
    var name := row.from[1].key;
    RefusedIsUntemplated(config, name);
    NoSuchCommand(build, config, name, Get2(config, COMMAND, name).value);
    assert row.to[..2] == row.from[..2] && row.to[0] == row.from[..2][0] && row.to[1] == row.from[..2][1];
    NothingBelow(ImportOf(build, config).0, COMMAND, name, row.to);
  }

  lemma ReplacedIsAMode(config: Json, name: string)
    requires WellFormed(config) && name in ReplacedAgents(config)
    ensures var mode := Get2(config, MODE, name);
            && mode.Some? && WellFormed(mode.value) && mode.value.Object?
            && ModeDefinition(config, name) == AgentOf(MODE_PLACE.Child(name), mode.value, true).value
  {
    var modes := Get(config, MODE).value;
    var entry :| entry in modes.entries && entry.key == name && entry.value.Object?;
    var i :| 0 <= i < |modes.entries| && modes.entries[i] == entry;
    NotYet(modes.entries, i);
  }

  lemma ReplacedRowExactly(build: Build, config: Json, row: Row)
    requires config.Object? && WellFormed(config) && row.Mapped?
    requires RootHonest(row, config, ImportOf(build, config).0) && OfEntry(row, AGENT, ReplacedAgents(config))
    ensures SaysItself(config, ImportOf(build, config).0, row.from, row.to) <==> ModeSaysToo(row, config)
    ensures At(ImportOf(build, config).0, row.to).Some?
            <==> |row.to| >= 2 && ModeHas(Get2(config, MODE, row.from[1].key).value, row.to[2..])
  {
    ReplacedAgentHolds(build, config, row.from[1].key);
    ReplacedIsAMode(config, row.from[1].key);
    JudgedByItsMode(config, ImportOf(build, config).0, row);
  }

  /** In a document that holds the mode's definition for the agent, the mode's keys decide. */
  lemma JudgedByItsMode(config: Json, document: Json, row: Row)
    requires WellFormed(config) && row.Mapped? && UnderItsName(row, config)
    requires OfEntry(row, AGENT, ReplacedAgents(config))
    requires Get2(document, AGENT, row.from[1].key) == ModeDefinition(config, row.from[1].key)
    requires Get2(config, MODE, row.from[1].key).Some?
    requires var mode := Get2(config, MODE, row.from[1].key).value;
             && WellFormed(mode) && mode.Object?
             && ModeDefinition(config, row.from[1].key) == AgentOf(MODE_PLACE.Child(row.from[1].key), mode, true).value
    ensures SaysItself(config, document, row.from, row.to) <==> ModeSaysToo(row, config)
    ensures At(document, row.to).Some?
            <==> |row.to| >= 2 && ModeHas(Get2(config, MODE, row.from[1].key).value, row.to[2..])
  {
    var name, from, to := row.from[1].key, row.from, row.to;
    assert to[..2] == from[..2] && to[0] == from[..2][0] && to[1] == from[..2][1];
    var own, mode := Get2(config, AGENT, name).value, Get2(config, MODE, name).value;
    HasExactly(MODE_PLACE.Child(name), own, mode, from[2..], to[2..]);
    SaysExactly(MODE_PLACE.Child(name), own, mode, from[2..], to[2..]);
    AtBelow(document, AGENT, name, to);
    SaysItselfBelow(config, document, AGENT, name, from, to);
  }

  lemma NotBoth(row: Row, commands: set<string>, agents: set<string>)
    ensures !(OfEntry(row, COMMAND, commands) && OfEntry(row, AGENT, agents))
  {
    assert |AGENT| == 5 && |COMMAND| == 7;
  }

  /**
   * Exactly which rows are true. What a row says landed is somewhere in the document, and its destination
   * holds what the row's own key says, just when the source decides it so: never for a command left out for
   * its template; for an agent a mode replaced, when the mode spells the key and says the same of it; and
   * otherwise unless a later name of the same tool, or an `endpoint` beside a `baseURL`, has the last word.
   */
  lemma RowsAreTrueExactly(build: Build, config: Json, i: nat)
    requires config.Object? && WellFormed(config) && i < |ImportOf(build, config).1|
             && ImportOf(build, config).1[i].Mapped?
    ensures var (document, rows) := ImportOf(build, config);
            && (At(document, rows[i].to).Some? <==> IsThere(rows[i], config))
            && (SaysItself(config, document, rows[i].from, rows[i].to) <==> StaysTrue(rows[i], config))
  {
    var (document, rows) := ImportOf(build, config);
    var row := rows[i];
    ImportIsHonest(build, config);
    assert RootHonest(row, config, document);
    NotBoth(row, RefusedCommands(config), ReplacedAgents(config));
    if OfEntry(row, COMMAND, RefusedCommands(config)) {
      RefusedRowLandsNowhere(build, config, row);
      if SaysItself(config, document, row.from, row.to) {
        SaysItselfLeads(config, document, row.from, row.to);
      }
    } else if OfEntry(row, AGENT, ReplacedAgents(config)) {
      ReplacedRowExactly(build, config, row);
    } else {
      assert row.from[|ROOT.from|..] == row.from && row.to[|ROOT.to|..] == row.to;
      BecomesLeads(config, document, row.from, row.to);
      LastWordExactly(config, document, row.from, row.to);
    }
  }

  const PROMPT := "prompt"

  lemma PromptRowed(at: Place, text: string)
    requires !OnlyToken(text)
    ensures AgentOf(at, Object([Entry(PROMPT, Str(text))]), false).rows
            == [Mapped(at.from + [Key(PROMPT)], at.to + [Key(PROMPT)])]
  {
    var entries := [Entry(PROMPT, Str(text))];
    var field := AgentField(at, false, Object(entries));
    assert entries[..0] == [] && Walk(field, false, []) == NOTHING;
    GuardRefusesTokens(text);
    assert field([], entries[0]).rows == [Mapped(at.from + [Key(PROMPT)], at.to + [Key(PROMPT)])];
  }

  /** An empty mode defines an agent that says nothing but that it is primary. */
  lemma EmptyMode(at: Place)
    ensures AgentOf(at, Object([]), true).value.Some?
    ensures Get(AgentOf(at, Object([]), true).value.value, PROMPT).None?
  {
    var writes: map<string, Option<Json>> := map[MODE := Some(Str(PRIMARY))];
    assert map[][MODE := Some(Str(PRIMARY))] == writes;
    assert |MODE| == 4 && |PROMPT| == 6;
    PresentFinds(AGENT_ORDER, writes, PROMPT);
    PresentFinds(AGENT_ORDER, writes, MODE);
    assert AGENT_ORDER[3] == MODE;
  }

  /** A config of one agent and one mode of its name. */
  function OneAgentOneMode(name: string, agent: Json, mode: Json): Json {
    Object([Entry(AGENT, Object([Entry(name, agent)])), Entry(MODE, Object([Entry(name, mode)]))])
  }

  lemma OneReplaced(name: string, agent: Json, mode: Json)
    requires WellFormed(agent) && WellFormed(mode) && mode.Object?
    ensures var config := OneAgentOneMode(name, agent, mode);
            && WellFormed(config) && name in ReplacedAgents(config)
            && ModeDefinition(config, name) == AgentOf(MODE_PLACE.Child(name), mode, true).value
  {
    var config, agents, modes := OneAgentOneMode(name, agent, mode), Object([Entry(name, agent)]),
      Object([Entry(name, mode)]);
    assert |AGENT| == 5 && |MODE| == 4;
    assert config.entries[0].key == AGENT && config.entries[1].key == MODE && AGENT != MODE;
    assert IndexOf(config.entries, MODE) == 1;
    assert modes.entries[0].key == name && IndexOf(modes.entries, name) == 0;
    assert WellFormed(agents) && WellFormed(modes);
    assert modes.entries[0] in modes.entries;
  }

  lemma PromptReplaced(build: Build, config: Json, name: string)
    requires config.Object? && WellFormed(config) && name in ReplacedAgents(config)
    requires ModeDefinition(config, name) == AgentOf(MODE_PLACE.Child(name), Object([]), true).value
    ensures At(ImportOf(build, config).0, [Key(AGENT), Key(name), Key(PROMPT)]).None?
  {
    ReplacedAgentHolds(build, config, name);
    EmptyMode(MODE_PLACE.Child(name));
    NothingAtThree(ImportOf(build, config).0, AGENT, name, PROMPT);
  }

  lemma NothingAtThree(json: Json, a: string, b: string, c: string)
    requires Get2(json, a, b).Some? && Get(Get2(json, a, b).value, c).None?
    ensures At(json, [Key(a), Key(b), Key(c)]).None?
  {
    var path := [Key(a), Key(b), Key(c)];
    AtBelow(json, a, b, path);
    AtOne(Get2(json, a, b).value, path[2..]);
  }

  /** An agent of one prompt beside an empty mode of its name: the row says the prompt landed, and it is nowhere. */
  lemma ReplacedRowCanBeFalse(build: Build, name: string, text: string)
    requires !OnlyToken(text)
    ensures var config := OneAgentOneMode(name, Object([Entry(PROMPT, Str(text))]), Object([]));
            var path := [Key(AGENT), Key(name), Key(PROMPT)];
            Mapped(path, path) in ImportOf(build, config).1 && At(ImportOf(build, config).0, path).None?
  {
    var agent := Object([Entry(PROMPT, Str(text))]);
    var config := OneAgentOneMode(name, agent, Object([]));
    OneReplaced(name, agent, Object([]));
    PromptReplaced(build, config, name);
    OnlyAgentRowed(build, name, text, config, Object([Entry(name, agent)]));
  }

  lemma OnlyAgentRowed(build: Build, name: string, text: string, config: Json, agents: Json)
    requires !OnlyToken(text) && agents == Object([Entry(name, Object([Entry(PROMPT, Str(text))]))])
    requires config.Object? && |config.entries| > 0 && config.entries[0] == Entry(AGENT, agents)
    ensures var path := [Key(AGENT), Key(name), Key(PROMPT)]; Mapped(path, path) in ImportOf(build, config).1
  {
    var at, path := ROOT.Child(AGENT), [Key(AGENT), Key(name), Key(PROMPT)];
    assert at.Child(name).from + [Key(PROMPT)] == path && at.Child(name).to + [Key(PROMPT)] == path;
    PromptRowed(at.Child(name), text);
    var section := SectionField(build, Agents(false), at);
    assert agents.entries[..1] == agents.entries;
    KeptThroughWalk(section, false, agents.entries, 1, 0, Mapped(path, path));
    AgentEffect(build, config, agents);
    assert config.entries[..0] == [] && config.entries[..|config.entries|] == config.entries;
    KeptThroughWalk(RootField(build, config), false, config.entries, |config.entries|, 0, Mapped(path, path));
  }

  lemma AgentEffect(build: Build, config: Json, value: Json)
    ensures RootKey(build, config, [], Entry(AGENT, value))
            == Set(AGENT, SectionOf(build, Agents(false), ROOT.Child(AGENT), value))
  {
    assert |AGENT| == 5 && |PERMISSION| == 10 && |INSTRUCTIONS| == 12 && AGENT[0] == 'a' && TOOLS[0] == 't';
    assert TEXT_KEYS[0][0] == 'm' && TEXT_KEYS[1][0] == 's' && TEXT_KEYS[2][0] == 'd' && TEXT_KEYS[3][0] == 't'
        && TEXT_KEYS[4][0] == 's';
  }
}
