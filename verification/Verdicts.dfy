/**
 * Which row each key gets, and with which reason, told of the source alone: a key is said to have landed when its
 * value is one its place takes, and otherwise the row says what is wrong with it.
 */
module Verdicts {
  import opened Optional
  import opened JsonTree
  import opened Tokens
  import opened Landing
  import opened Accounts
  import opened PermissionFold
  import opened Walks
  import opened Fields
  import opened Entries
  import opened Services
  import opened Holding
  import opened Import
  import opened ToolDecisions

  // One value.

  function WordRow(at: Place, value: Json): Row {
    if !value.Str? then Skipped(at.from, Malformed)
    else if OnlyToken(value.text) then Skipped(at.from, OnlyAToken)
    else Mapped(at.from, at.to)
  }

  function FlagRow(at: Place, value: Json): Row {
    if value.Bool? then Mapped(at.from, at.to) else Skipped(at.from, Malformed)
  }

  function ModeRow(at: Place, value: Json): Row {
    if value in [Str("primary"), Str("subagent"), Str("all")] then Mapped(at.from, at.to)
    else Skipped(at.from, Malformed)
  }

  lemma WordRowed(at: Place, value: Json)
    ensures Text(at, value).rows == [WordRow(at, value)]
  {
    if value.Str? {
      GuardRefusesTokens(value.text);
    }
  }

  lemma ModeRowed(at: Place, value: Json)
    ensures ModeNamed(at, value).rows == [ModeRow(at, value)]
  {
    assert MODES == ["primary", "subagent", "all"];
    assert value.Str? ==> value == Str(value.text);
  }

  // An agent's keys.

  /** The row of an agent's key that is not part of its rules. */
  function AgentRow(at: Place, primary: bool, key: string, value: Json): Row {
    var child := at.Child(key);
    if key in ["model", "prompt", "description"] then WordRow(child, value)
    else if key in ["hidden", "disable"] then FlagRow(child, value)
    else if key == "mode" then if primary then Skipped(child.from, Overridden) else ModeRow(child, value)
    else if key in ["temperature", "top_p", "steps", "maxSteps", "variant", "options", "color"]
    then Skipped(child.from, Unsupported)
    else Skipped(child.from, UnknownKey)
  }

  lemma AgentKeyRowed(at: Place, primary: bool, whole: Json, before: seq<Entry>, entry: Entry)
    requires entry.key != "permission" && entry.key != "tools"
    ensures AgentKey(at, primary, whole, before, entry).rows == [AgentRow(at, primary, entry.key, entry.value)]
  {
    var child := at.Child(entry.key);
    WordRowed(child, entry.value);
    ModeRowed(child, entry.value);
    assert DROPPED_AGENT_FIELDS == ["temperature", "top_p", "steps", "maxSteps", "variant", "options", "color"];
  }

  lemma RowOfKey(field: Field, firstRefusal: bool, entries: seq<Entry>, i: nat, row: Row)
    requires i < |entries| && field(entries[..i], entries[i]).rows == [row]
    ensures row in Walk(field, firstRefusal, entries).rows
  {
    assert entries[..|entries|] == entries;
    assert row in [row];
    KeptThroughWalk(field, firstRefusal, entries, |entries|, i, row);
  }

  /** Every key of an agent outside its rules has the row its value earns; and a mode has one for being primary. */
  lemma AgentKeysRowed(at: Place, value: Json, primary: bool, key: string)
    requires WellFormed(value) && Get(value, key).Some? && key != "permission" && key != "tools"
    ensures AgentRow(at, primary, key, Get(value, key).value) in AgentOf(at, value, primary).rows
    ensures primary ==> Mapped(at.from, at.to + [Key("mode")]) in AgentOf(at, value, primary).rows
  {
    var i := IndexOf(value.entries, key);
    AgentKeyRowed(at, primary, value, value.entries[..i], value.entries[i]);
    RowOfKey(AgentField(at, primary, value), false, value.entries, i,
             AgentRow(at, primary, key, Get(value, key).value));
  }

  // A command's keys.

  function CommandRow(at: Place, key: string, value: Json): Row {
    var child := at.Child(key);
    if key in ["template", "description", "agent", "model"] then WordRow(child, value)
    else if key in ["variant", "subtask"] then Skipped(child.from, Unsupported)
    else Skipped(child.from, UnknownKey)
  }

  /** Every key of a command has its row, and a command that says nothing to send has one of its own. */
  lemma CommandKeysRowed(at: Place, value: Json, key: string)
    requires WellFormed(value) && value.Object?
    ensures Get(value, key).Some? ==> CommandRow(at, key, Get(value, key).value) in CommandOf(at, value).rows
    ensures !HasTemplate(value) ==> Skipped(at.from, Malformed) in CommandOf(at, value).rows
  {
    CommandNeedsTemplate(at, value);
    if Get(value, key).Some? {
      var i := IndexOf(value.entries, key);
      WordRowed(at.Child(key), value.entries[i].value);
      assert COMMAND_ORDER == ["template", "description", "agent", "model"];
      assert DROPPED_COMMAND_FIELDS == ["variant", "subtask"];
      RowOfKey(CommandField(at), false, value.entries, i, CommandRow(at, key, Get(value, key).value));
    }
  }

  // The keys of a config.

  /** Why a top-level key that goes nowhere was left out. */
  function DroppedFor(key: string): Reason {
    if key == "$schema" then Unpublished
    else if key == "compaction" then Deferred
    else if key == "disabled_providers" || key == "enabled_providers" then Catalog
    else if key == "keybinds" || key == "tui" then Incompatible
    else if key in [
      "attachment", "autoshare", "autoupdate", "enterprise", "experimental", "formatter", "layout", "logLevel",
      "plugin", "reference", "references", "server", "share", "skills", "subagent_depth", "tool_output", "username",
      "watcher"]
    then Unsupported
    else UnknownKey
  }

  /** The keys of a config that hold more than one row's worth. */
  const COMPOSITE := ["instructions", "permission", "tools", "agent", "mode", "command", "mcp", "lsp", "provider"]

  function RootRow(key: string, value: Json): Row {
    var here := Place([Key(key)], [Key(key)]);
    if key in ["model", "small_model", "default_agent", "theme", "shell"] then WordRow(here, value)
    else if key == "snapshot" then FlagRow(here, value)
    else Skipped([Key(key)], DroppedFor(key))
  }

  lemma RootKeyRowed(build: Build, config: Json, before: seq<Entry>, entry: Entry)
    requires entry.key !in COMPOSITE
    ensures RootKey(build, config, before, entry).rows == [RootRow(entry.key, entry.value)]
  {
    var key := entry.key;
    assert ROOT.Child(key) == Place([Key(key)], [Key(key)]);
    NotComposite(key);
    if key in TEXT_KEYS {
      WordRowed(ROOT.Child(key), entry.value);
    } else if key != SNAPSHOT {
      DroppedAtRoot(build, config, before, entry);
    }
  }

  lemma DroppedAtRoot(build: Build, config: Json, before: seq<Entry>, entry: Entry)
    requires entry.key !in COMPOSITE && entry.key !in TEXT_KEYS && entry.key != SNAPSHOT
    ensures RootKey(build, config, before, entry).rows == [Skipped([Key(entry.key)], DroppedFor(entry.key))]
  {
    NotComposite(entry.key);
    assert ROOT.Child(entry.key).from == [Key(entry.key)];
    WhyDropped(entry.key);
  }

  lemma WhyDropped(key: string)
    ensures WhySkipped(key) == DroppedFor(key)
  {}

  lemma NotComposite(key: string)
    requires key !in COMPOSITE
    ensures key != INSTRUCTIONS && key != PERMISSION && key != TOOLS && key != MODE && SectionNamed(key).None?
  {
    assert COMPOSITE[0] == INSTRUCTIONS && COMPOSITE[1] == PERMISSION && COMPOSITE[2] == TOOLS
        && COMPOSITE[3] == AGENT && COMPOSITE[4] == MODE && COMPOSITE[5] == COMMAND && COMPOSITE[6] == MCP
        && COMPOSITE[7] == LSP && COMPOSITE[8] == PROVIDER;
  }

  /** Every top-level key of one row has the row its value earns, and a key that goes nowhere the reason why. */
  lemma RootKeysRowed(build: Build, config: Json, key: string)
    requires config.Object? && WellFormed(config) && Get(config, key).Some? && key !in COMPOSITE
    ensures RootRow(key, Get(config, key).value) in ImportOf(build, config).1
  {
    var i := IndexOf(config.entries, key);
    RootKeyRowed(build, config, config.entries[..i], config.entries[i]);
    RowOfKey(RootField(build, config), false, config.entries, i, RootRow(key, Get(config, key).value));
  }

  // The rows of a `tools` map.

  /** One entry's: it is no flag, or something explicit has the word, or it landed on the tool it asks for. */
  ghost predicate ToolRow(at: Place, explicit: Option<Json>, entry: Entry, row: Row) {
    var from := at.from + [Key("tools"), Key(entry.key)];
    if !entry.value.Bool? then row == Skipped(from, Malformed)
    else if explicit.Some? && explicit.value.Str? then row == Skipped(from, Overridden)
    else
      exists tool ::
        AsksFor(entry.key, tool)
        && row == if Has(EntriesIn(explicit), tool) then Skipped(from, Overridden)
                  else Mapped(from, at.to + [Key("permission"), Key(tool)])
  }

  ghost predicate ToolRows(at: Place, explicit: Option<Json>, tools: seq<Entry>, rows: seq<Row>) {
    |rows| == |tools| && forall i :: 0 <= i < |tools| ==> ToolRow(at, explicit, tools[i], rows[i])
  }

  lemma ToolRowsMore(at: Place, explicit: Option<Json>, tools: seq<Entry>, rows: seq<Row>, entry: Entry, row: Row)
    requires ToolRows(at, explicit, tools, rows) && ToolRow(at, explicit, entry, row)
    ensures ToolRows(at, explicit, tools + [entry], rows + [row])
  {}

  lemma {:induction false} DerivedRowed(at: Place, explicit: Option<Json>, tools: seq<Entry>)
    ensures ToolRows(at, explicit, tools,
                     Derived(at, explicit.Some? && explicit.value.Str?, EntriesIn(explicit), tools).1)
  {
    if tools != [] {
      var n := |tools| - 1;
      var row := LastToolRowed(at, explicit, tools);
      DerivedRowed(at, explicit, tools[..n]);
      assert tools == tools[..n] + [tools[n]];
      ToolRowsMore(at, explicit, tools[..n],
                   Derived(at, explicit.Some? && explicit.value.Str?, EntriesIn(explicit), tools[..n]).1, tools[n],
                   row);
    }
  }

  lemma LastToolRowed(at: Place, explicit: Option<Json>, tools: seq<Entry>) returns (row: Row)
    requires tools != []
    ensures var n, replaced, claims := |tools| - 1, explicit.Some? && explicit.value.Str?, EntriesIn(explicit);
            && Derived(at, replaced, claims, tools).1 == Derived(at, replaced, claims, tools[..n]).1 + [row]
            && ToolRow(at, explicit, tools[n], row)
  {
    var last, rows := tools[|tools| - 1],
      Derived(at, explicit.Some? && explicit.value.Str?, EntriesIn(explicit), tools).1;
    AsksForOne(last.key, ToolNamed(last.key));
    row := rows[|rows| - 1];
  }

  /** The first rows of a fold are those of `tools`, one an entry and in order. */
  lemma ToolsRowed(at: Place, tools: seq<Entry>, explicit: Option<Json>)
    ensures var rows := PermissionOf(at, Some(Object(tools)), explicit).rows;
            |tools| <= |rows| && forall i :: 0 <= i < |tools| ==> ToolRow(at, explicit, tools[i], rows[i])
  {
    DerivedRowed(at, explicit, tools);
  }

  // Why a service is left out.

  /** The first element that is no word is a lone token. */
  predicate TokenFirst(elements: seq<Json>) {
    exists i :: 0 <= i < |elements| && elements[i].Str? && OnlyToken(elements[i].text)
                && forall j :: 0 <= j < i ==> IsWord(elements[j])
  }

  /** What is wrong with a list of words. */
  function ListWhy(value: Json): Reason {
    if value.Array? && TokenFirst(value.elements) then OnlyAToken else Malformed
  }

  /** What is wrong with an address. */
  function AddressWhy(value: Json): Reason {
    if !value.Str? then Malformed else if OnlyToken(value.text) then OnlyAToken else Refused
  }

  lemma {:induction false} BadIsFirst(elements: seq<Json>, i: nat) returns (k: nat)
    requires i <= |elements| && FirstBad(elements, i).Some?
    ensures i <= k < |elements| && !Carryable(elements[k]) && (forall j :: i <= j < k ==> Carryable(elements[j]))
    ensures FirstBad(elements, i).value.1 == if elements[k].Str? then OnlyAToken else Malformed
    decreases |elements| - i
  {
    if Carryable(elements[i]) {
      k := BadIsFirst(elements, i + 1);
    } else {
      k := i;
    }
  }

  lemma BadWhy(elements: seq<Json>)
    requires FirstBad(elements, 0).Some?
    ensures FirstBad(elements, 0).value.1 == ListWhy(Array(elements))
  {
    var k := BadIsFirst(elements, 0);
    forall j | 0 <= j <= k ensures Carryable(elements[j]) <==> IsWord(elements[j]) {
      WordGuards(elements[j]);
    }
    if TokenFirst(elements) {
      var i :| 0 <= i < |elements| && elements[i].Str? && OnlyToken(elements[i].text)
               && forall j :: 0 <= j < i ==> IsWord(elements[j]);
      assert i <= k ==> !IsWord(elements[i]);
      assert i == k;
    }
  }

  lemma ListRefusal(at: Place, value: Json)
    ensures Texts(at, value).refused == if IsList(value) then None else Some(ListWhy(value))
    ensures Program(at, value).refused == if IsProgram(value) then None else Some(ListWhy(value))
  {
    ListRead(at, value);
    if value.Array? && FirstBad(value.elements, 0).Some? {
      BadWhy(value.elements);
    }
  }

  lemma AddressRefusal(build: Build, at: Place, value: Json)
    ensures Endpoint(at, value, build.reachable).refused
            == if IsAddress(value, build) then None else Some(AddressWhy(value))
  {
    if value.Str? {
      GuardRefusesTokens(value.text);
    }
  }

  /** Why a server that is not whole is left out. */
  function ServerWhy(value: Json): Reason {
    if Get(value, "type") == Some(Str("local")) && Get(value, "command").Some? then ListWhy(Get(value, "command").value)
    else if Get(value, "type") == Some(Str("remote")) && Get(value, "url").Some?
      then AddressWhy(Get(value, "url").value)
    else Malformed
  }

  lemma ServerRefusedBy(build: Build, at: Place, local: bool, value: Json)
    requires WellFormed(value) && value.Object?
    requires Walk(ServerField(build, at, local), false, value.entries).refused.Some?
    ensures var key := if local then "command" else "url";
            && Get(value, key).Some?
            && Walk(ServerField(build, at, local), false, value.entries).refused
               == Some(if local then ListWhy(Get(value, key).value) else AddressWhy(Get(value, key).value))
  {
    var field, entries, key := ServerField(build, at, local), value.entries, if local then "command" else "url";
    ServerWalkRefuses(build, at, local, value);
    var i := IndexOf(entries, key);
    assert entries[..|entries|] == entries;
    ListRefusal(at.Child(key), entries[i].value);
    AddressRefusal(build, at.Child(key), entries[i].value);
    forall j | i < j < |entries| ensures field(entries[..j], entries[j]).refused.None? {
      ServerRefusal(build, at, local, entries[j]);
    }
    LastRefusal(field, entries, |entries|, i);
  }

  /** A server left out has a row of its own that says what its program or its address lacks. */
  lemma ServerRefusedRow(build: Build, at: Place, value: Json)
    requires WellFormed(value) && !ServerWhole(build, value)
    ensures ServerOf(build, at, value).value.None?
    ensures ServerOf(build, at, value).rows != []
            && ServerOf(build, at, value).rows[0] == Skipped(at.from, ServerWhy(value))
  {
    ServerCarriedExactly(build, at, value);
    KindIs(value);
    if value.Object? && KindOf(value) in [LOCAL, REMOTE] {
      var local := KindOf(value) == LOCAL;
      ServerWalkRefuses(build, at, local, value);
      if Walk(ServerField(build, at, local), false, value.entries).refused.Some? {
        ServerRefusedBy(build, at, local, value);
      }
    }
  }

  /** What is wrong with a field of a language server, if it is spelled and anything is. */
  function LspWrong(value: Json, key: string): Option<Reason> {
    var spelled := Get(value, key);
    if spelled.None? then None
    else if key == "command" then if IsProgram(spelled.value) then None else Some(ListWhy(spelled.value))
    else if IsList(spelled.value) then None
    else Some(ListWhy(spelled.value))
  }

  /** Of two keys that are spelled, the one spelled last. */
  predicate SpelledAfter(value: Json, a: string, b: string) {
    value.Object? && IndexOf(value.entries, a) > IndexOf(value.entries, b)
  }

  /**
   * Why a language server that is not whole is left out: it leans on a definition this build has not got, or one of
   * its lists is wrong, the last one spelled if both are, or it does not say enough to be started.
   */
  function LspWhy(name: string, value: Json): Reason {
    var command, extensions := LspWrong(value, "command"), LspWrong(value, "extensions");
    if name != "gopls" && name != "rust" && name in UPSTREAM_LSP_SERVERS
       && !(Get(value, "command").Some? && Get(value, "extensions").Some?)
    then Unsupported
    else if command.Some? && (extensions.None? || SpelledAfter(value, "command", "extensions")) then command.value
    else if extensions.Some? then extensions.value
    else Malformed
  }

  lemma LspKeyRefusal(at: Place, value: Json, i: nat)
    requires WellFormed(value) && value.Object? && i < |value.entries|
    ensures var key := value.entries[i].key;
            LspKey(at, value.entries[i]).refused
            == if key == "command" || key == "extensions" then LspWrong(value, key) else None
  {
    var entry := value.entries[i];
    NotYet(value.entries, i);
    ListRefusal(at.Child(entry.key), entry.value);
    assert |COMMAND| == 7 && |EXTENSIONS| == 10;
  }

  lemma LspRefusedBy(at: Place, value: Json, key: string, other: string)
    requires WellFormed(value) && value.Object? && LspWrong(value, key).Some?
    requires (key == "command" && other == "extensions") || (key == "extensions" && other == "command")
    requires LspWrong(value, other).Some? ==> SpelledAfter(value, key, other)
    ensures Walk(LspField(at), false, value.entries).refused == LspWrong(value, key)
  {
    var field, entries, i := LspField(at), value.entries, IndexOf(value.entries, key);
    assert entries[..|entries|] == entries;
    LspKeyRefusal(at, value, i);
    forall j | i < j < |entries| ensures field(entries[..j], entries[j]).refused.None? {
      LspKeyRefusal(at, value, j);
      IndexOfUnique(entries, j);
    }
    LastRefusal(field, entries, |entries|, i);
  }

  lemma LspRefusal(at: Place, value: Json)
    requires WellFormed(value) && value.Object?
    ensures var command, extensions := LspWrong(value, "command"), LspWrong(value, "extensions");
            Walk(LspField(at), false, value.entries).refused
            == if command.Some? && (extensions.None? || SpelledAfter(value, "command", "extensions")) then command
               else extensions
  {
    var command, extensions := LspWrong(value, "command"), LspWrong(value, "extensions");
    LspWalkRefuses(at, value);
    if command.Some? && (extensions.None? || SpelledAfter(value, "command", "extensions")) {
      LspRefusedBy(at, value, "command", "extensions");
    } else if extensions.Some? {
      if command.Some? {
        SpelledApart(value);
      }
      LspRefusedBy(at, value, "extensions", "command");
    }
  }

  lemma SpelledApart(value: Json)
    requires Get(value, "command").Some? && Get(value, "extensions").Some?
    ensures SpelledAfter(value, "command", "extensions") || SpelledAfter(value, "extensions", "command")
  {
    assert |"command"| == 7 && |"extensions"| == 10;
  }

  lemma LeftOutFirst(at: Place, refused: Option<Reason>, rows: seq<Row>, document: Json)
    ensures Settled(at, refused, rows, document).value.None? <==> refused.Some?
    ensures refused.Some? ==>
              Settled(at, refused, rows, document).rows != []
              && Settled(at, refused, rows, document).rows[0] == Skipped(at.from, refused.value)
  {}

  /** A language server left out has a row of its own that says why. */
  lemma LspRefusedRow(at: Place, name: string, value: Json)
    requires WellFormed(value) && !LspWhole(name, value)
    ensures LspOf(at, name, value).value.None?
    ensures LspOf(at, name, value).rows != []
            && LspOf(at, name, value).rows[0] == Skipped(at.from, LspWhy(name, value))
  {
    LspCarriedExactly(at, name, value);
    ShippedNames(name);
    if value.Object? && !(name !in BUILTIN_IDS && name in UPSTREAM_LSP_SERVERS && !StandsAlone(value)) {
      LspSettledRow(at, name, value);
    }
  }

  lemma LspSettledRow(at: Place, name: string, value: Json)
    requires WellFormed(value) && value.Object? && LspOf(at, name, value).value.None?
    requires !(name !in BUILTIN_IDS && name in UPSTREAM_LSP_SERVERS && !StandsAlone(value))
    ensures LspOf(at, name, value).rows != []
            && LspOf(at, name, value).rows[0] == Skipped(at.from, LspWhy(name, value))
  {
    var all := Walk(LspField(at), false, value.entries);
    var refused := if all.refused.None? then LspMissing(name, all.writes) else all.refused;
    ShippedNames(name);
    LspRefusal(at, value);
    LeftOutFirst(at, refused, all.rows, Object(Present(LSP_ORDER, all.writes)));
  }

  /** What is wrong with a provider's addresses: the first of the two spelled that is wrong. */
  function AddressesWrong(build: Build, options: Json): Option<Reason> {
    var endpoint, url := Get(options, "endpoint"), Get(options, "baseURL");
    var first := endpoint.Some? && !IsAddress(endpoint.value, build);
    var second := url.Some? && !IsAddress(url.value, build);
    if first && (!second || SpelledAfter(options, "baseURL", "endpoint")) then Some(AddressWhy(endpoint.value))
    else if second then Some(AddressWhy(url.value))
    else None
  }

  function PackageWrong(value: Json): Option<Reason> {
    var package := Get(value, "npm");
    if package.None? then None
    else if !package.value.Str? then Some(Malformed)
    else if Wire(package.value.text).None? then Some(Unsupported)
    else None
  }

  function OptionsWrong(build: Build, value: Json): Option<Reason> {
    var options := Get(value, "options");
    if options.None? then None else AddressesWrong(build, options.value)
  }

  /**
   * Why a provider that is not whole is left out: its name is taken, or the first of its keys that is wrong is, or
   * it lacks a wire or an address.
   */
  function ProviderWhy(build: Build, id: string, value: Json): Reason {
    var package, options := PackageWrong(value), OptionsWrong(build, value);
    if !value.Object? then Malformed
    else if id in build.shipped then Refused
    else if package.Some? && (options.None? || SpelledAfter(value, "options", "npm")) then package.value
    else if options.Some? then options.value
    else Unsupported
  }

  lemma OptionRefusalIs(build: Build, at: Place, options: Json, i: nat)
    requires WellFormed(options) && options.Object? && i < |options.entries|
    ensures var entry := options.entries[i];
            OptionKey(build, at, entry).refused
            == if (entry.key == "endpoint" || entry.key == "baseURL") && !IsAddress(entry.value, build)
               then Some(AddressWhy(entry.value)) else None
  {
    var entry := options.entries[i];
    assert |API_KEY| == 6 && |ENDPOINT| == 8 && |UPSTREAM_URL| == 7;
    AddressRefusal(build, Place(at.from + [Key(OPTIONS), Key(entry.key)], at.to + [Key(BASE_URL)]), entry.value);
  }

  lemma OptionsRefusedBy(build: Build, at: Place, options: Json, key: string, other: string)
    requires WellFormed(options) && options.Object? && Get(options, key).Some?
    requires !IsAddress(Get(options, key).value, build)
    requires (key == "endpoint" && other == "baseURL") || (key == "baseURL" && other == "endpoint")
    requires Get(options, other).Some? && !IsAddress(Get(options, other).value, build) ==>
             SpelledAfter(options, other, key)
    ensures OptionsOf(build, at, options).refused == Some(AddressWhy(Get(options, key).value))
  {
    var field, entries, i := OptionField(build, at), options.entries, IndexOf(options.entries, key);
    assert entries[..|entries|] == entries;
    OptionRefusalIs(build, at, options, i);
    forall j | 0 <= j < i ensures field(entries[..j], entries[j]).refused.None? {
      OptionRefusalIs(build, at, options, j);
      IndexOfUnique(entries, j);
    }
    FirstRefusal(field, entries, |entries|, i);
  }

  lemma OptionsRefusal(build: Build, at: Place, options: Json)
    requires WellFormed(options)
    ensures OptionsOf(build, at, options).refused == AddressesWrong(build, options)
  {
    var endpoint, url := Get(options, "endpoint"), Get(options, "baseURL");
    var first := endpoint.Some? && !IsAddress(endpoint.value, build);
    var second := url.Some? && !IsAddress(url.value, build);
    OptionsRefuse(build, at, options);
    if first && (!second || SpelledAfter(options, "baseURL", "endpoint")) {
      OptionsRefusedBy(build, at, options, "endpoint", "baseURL");
    } else if second {
      assert |"endpoint"| == 8 && |"baseURL"| == 7;
      OptionsRefusedBy(build, at, options, "baseURL", "endpoint");
    }
  }

  lemma ProviderKeyRefusal(build: Build, at: Place, value: Json, i: nat)
    requires WellFormed(value) && value.Object? && i < |value.entries|
    ensures var key := value.entries[i].key;
            ProviderKey(build, at, value.entries[i]).refused
            == if key == "npm" then PackageWrong(value)
               else if key == "options" then OptionsWrong(build, value) else None
  {
    var entry := value.entries[i];
    NotYet(value.entries, i);
    assert |NPM| == 3 && |OPTIONS| == 7;
    if entry.key == "options" {
      OptionsRefusal(build, at, entry.value);
    }
  }

  lemma ProviderRefusedBy(build: Build, at: Place, value: Json, key: string, other: string, why: Option<Reason>)
    requires WellFormed(value) && value.Object? && why.Some? && Get(value, key).Some?
    requires (key == "npm" && other == "options") || (key == "options" && other == "npm")
    requires why == if key == "npm" then PackageWrong(value) else OptionsWrong(build, value)
    requires (if key == "npm" then OptionsWrong(build, value) else PackageWrong(value)).Some? ==>
               SpelledAfter(value, other, key)
    ensures Walk(ProviderField(build, at), true, value.entries).refused == why
  {
    var field, entries, i := ProviderField(build, at), value.entries, IndexOf(value.entries, key);
    assert entries[..|entries|] == entries;
    assert |"npm"| == 3 && |"options"| == 7;
    ProviderKeyRefusal(build, at, value, i);
    forall j | 0 <= j < i ensures field(entries[..j], entries[j]).refused.None? {
      ProviderKeyRefusal(build, at, value, j);
      IndexOfUnique(entries, j);
    }
    FirstRefusal(field, entries, |entries|, i);
  }

  lemma ProviderRefusal(build: Build, at: Place, value: Json)
    requires WellFormed(value) && value.Object?
    ensures var package, options := PackageWrong(value), OptionsWrong(build, value);
            Walk(ProviderField(build, at), true, value.entries).refused
            == if package.Some? && (options.None? || SpelledAfter(value, "options", "npm")) then package else options
  {
    var package, options := PackageWrong(value), OptionsWrong(build, value);
    if package.Some? && (options.None? || SpelledAfter(value, "options", "npm")) {
      ProviderRefusedBy(build, at, value, "npm", "options", package);
    } else if options.Some? {
      assert |"npm"| == 3 && |"options"| == 7;
      ProviderRefusedBy(build, at, value, "options", "npm", options);
    } else {
      var entries := value.entries;
      assert entries[..|entries|] == entries;
      forall j | 0 <= j < |entries| ensures ProviderField(build, at)(entries[..j], entries[j]).refused.None? {
        ProviderKeyRefusal(build, at, value, j);
      }
      WalkRefusesExactly(ProviderField(build, at), true, entries, |entries|);
    }
  }

  /** A provider left out has a row of its own that says why. */
  lemma ProviderRefusedRow(build: Build, at: Place, id: string, value: Json)
    requires WellFormed(value) && !ProviderWhole(build, id, value)
    ensures ProviderOf(build, at, id, value).value.None?
    ensures ProviderOf(build, at, id, value).rows != []
            && ProviderOf(build, at, id, value).rows[0] == Skipped(at.from, ProviderWhy(build, id, value))
  {
    ProviderCarriedExactly(build, at, id, value);
    if value.Object? {
      var all := Walk(ProviderField(build, at), true, value.entries);
      var met := if id in build.shipped then Some(Refused) else all.refused;
      var refused := if met.None? then ProviderMissing(all.writes) else met;
      ProviderRefusal(build, at, value);
      LeftOutFirst(at, refused, all.rows, Object(Present(PROVIDER_ORDER, all.writes)));
    }
  }
}
