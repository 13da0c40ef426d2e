/** What the document of an import holds under each of its keys, told of the config alone. */
module ImportHolds {
  import opened Optional
  import opened JsonTree
  import opened Landing
  import opened Accounts
  import opened Permissions
  import opened PermissionFold
  import opened ToolDecisions
  import opened Walks
  import opened Entries
  import opened AgentRows
  import opened Services
  import opened Holding
  import opened Import

  /** What one top-level key leaves under its own name. */
  function RootSlot(build: Build, config: Json, key: string): Option<Json> {
    var spelled := Get(config, key);
    if spelled.None? then None else Held(RootKey(build, config, [], Entry(key, spelled.value)).writes, key)
  }

  lemma KeyAlone(build: Build, config: Json, before: seq<Entry>, entry: Entry)
    requires entry.key != PERMISSION && entry.key != TOOLS
    ensures RootKey(build, config, before, entry) == RootKey(build, config, [], entry)
  {}

  lemma SlotHeld(build: Build, config: Json, key: string)
    requires config.Object? && WellFormed(config) && key != PERMISSION && key != TOOLS
    ensures Held(RootWalk(build, config).writes, key) == RootSlot(build, config, key)
  {
    var entries := config.entries;
    RootWalkHolds(build, config);
    SlotFrom(RootField(build, config), false, FoldOwned(), entries, key, key);
    var i := IndexOf(entries, key);
    if i < |entries| {
      assert entries[i] == Entry(key, Get(config, key).value);
      KeyAlone(build, config, entries[..i], entries[i]);
    }
  }

  lemma RootSlotHeld(build: Build, config: Json, key: string)
    requires config.Object? && WellFormed(config) && key != PERMISSION && key != AGENT && key != TOOLS
    ensures Get(ImportOf(build, config).0, key) == RootSlot(build, config, key)
  {
    RootFinds(build, config, key);
    SlotHeld(build, config, key);
  }

  /** The rules the document holds are those `tools` and `permission` fold to. */
  lemma PermissionHeld(build: Build, config: Json)
    requires config.Object? && WellFormed(config)
    ensures Get(ImportOf(build, config).0, "permission")
            == PermissionOf(ROOT, Get(config, "tools"), Get(config, "permission")).value
  {
    var entries := config.entries;
    var rules := PermissionOf(ROOT, Get(config, TOOLS), Get(config, PERMISSION)).value;
    assert |AGENT| == 5 && |PERMISSION| == 10;
    RootFinds(build, config, PERMISSION);
    RootWalkHolds(build, config);
    forall i | 0 <= i < |entries| && (entries[i].key == PERMISSION || entries[i].key == TOOLS)
               && !FoldedAlready(entries[..i])
      ensures RootKey(build, config, entries[..i], entries[i]).writes == map[PERMISSION := rules]
    {
      FoldEffect(build, config, i);
    }
    FoldSlot(RootField(build, config), entries, rules);
  }

  /** The words of a config: the model, the smaller model, the agent to start on, the theme and the shell. */
  lemma WordsHeld(build: Build, config: Json, key: string)
    requires config.Object? && WellFormed(config)
    requires key in ["model", "small_model", "default_agent", "theme", "shell"]
    ensures Get(ImportOf(build, config).0, key) == WordIn(Get(config, key))
  {
    RootWords(key);
    RootSlotHeld(build, config, key);
    if Get(config, key).Some? {
      WordRead(ROOT.Child(key), Get(config, key).value);
    }
  }

  lemma RootWords(key: string)
    requires key in ["model", "small_model", "default_agent", "theme", "shell"]
    ensures key in TEXT_KEYS && key != PERMISSION && key != AGENT && key != TOOLS
  {
    assert |PERMISSION| == 10 && AGENT[0] == 'a' && TOOLS[1] == 'o';
    assert "model"[0] == 'm' && "small_model"[0] == 's' && |"default_agent"| == 13 && "theme"[1] == 'h'
        && "shell"[0] == 's';
  }

  /** The other values of a config: the flag for snapshots, and those instruction paths that are files. */
  lemma ValuesHeld(build: Build, config: Json)
    requires config.Object? && WellFormed(config)
    ensures Get(ImportOf(build, config).0, "snapshot") == FlagIn(Get(config, "snapshot"))
    ensures Get(ImportOf(build, config).0, "instructions") == FilesIn(Get(config, "instructions"))
  {
    SnapshotSlot(build, config);
    InstructionsSlot(build, config);
  }

  lemma SnapshotSlot(build: Build, config: Json)
    requires config.Object? && WellFormed(config)
    ensures Get(ImportOf(build, config).0, SNAPSHOT) == FlagIn(Get(config, SNAPSHOT))
  {
    assert |SNAPSHOT| == 8 && SNAPSHOT[0] == 's' && SNAPSHOT[1] == 'n' && |PERMISSION| == 10 && |AGENT| == 5
        && |TOOLS| == 5 && |INSTRUCTIONS| == 12;
    assert SNAPSHOT !in TEXT_KEYS && SectionNamed(SNAPSHOT).None? && SNAPSHOT != MODE;
    RootSlotHeld(build, config, SNAPSHOT);
  }

  lemma InstructionsSlot(build: Build, config: Json)
    requires config.Object? && WellFormed(config)
    ensures Get(ImportOf(build, config).0, INSTRUCTIONS) == FilesIn(Get(config, INSTRUCTIONS))
  {
    assert |INSTRUCTIONS| == 12 && INSTRUCTIONS[0] == 'i' && |PERMISSION| == 10 && |AGENT| == 5 && |TOOLS| == 5;
    assert INSTRUCTIONS !in TEXT_KEYS;
    RootSlotHeld(build, config, INSTRUCTIONS);
    if Get(config, INSTRUCTIONS).Some? {
      FilesRead(ROOT.Child(INSTRUCTIONS), Get(config, INSTRUCTIONS).value);
    }
  }

  // Sections.

  /** The key of a section beside the agents'. */
  function KeyFor(kind: Kind): string
    requires !kind.Agents?
  {
    match kind
    case Commands => "command"
    case Servers => "mcp"
    case LanguageServers => "lsp"
    case Providers => "provider"
  }

  lemma KeyNames(kind: Kind)
    requires !kind.Agents?
    ensures SectionNamed(KeyFor(kind)) == Some(kind) && KeyFor(kind) != AGENT
  {
    assert |AGENT| == 5 && |COMMAND| == 7 && |MCP| == 3 && |LSP| == 3 && |PROVIDER| == 8;
    assert MCP[0] == 'm' && LSP[0] == 'l';
  }

  /** A section of the document is what its own key became. */
  lemma SectionMade(build: Build, config: Json, kind: Kind)
    requires config.Object? && WellFormed(config) && !kind.Agents?
    ensures Get(ImportOf(build, config).0, KeyFor(kind))
            == var spelled := Get(config, KeyFor(kind));
               if spelled.Some? then SectionOf(build, kind, ROOT.Child(KeyFor(kind)), spelled.value).value else None
  {
    var section := KeyFor(kind);
    KeyNames(kind);
    SectionIsNoOther(section);
    RootSlotHeld(build, config, section);
    if Get(config, section).Some? {
      SectionEffect(build, config, section, Get(config, section).value);
    }
  }

  lemma SectionIsNoOther(section: string)
    requires SectionNamed(section).Some?
    ensures section !in TEXT_KEYS && section != PERMISSION && section != TOOLS && section != INSTRUCTIONS
  {
    assert |AGENT| == 5 && |COMMAND| == 7 && |MCP| == 3 && |LSP| == 3 && |PROVIDER| == 8;
    assert AGENT[0] == 'a' && |PERMISSION| == 10 && TOOLS[0] == 't' && |TOOLS| == 5 && |INSTRUCTIONS| == 12;
    assert |TEXT_KEYS[0]| == 5 && TEXT_KEYS[0][0] == 'm' && |TEXT_KEYS[1]| == 11 && |TEXT_KEYS[2]| == 13
        && |TEXT_KEYS[3]| == 5 && TEXT_KEYS[3][0] == 't' && |TEXT_KEYS[4]| == 5 && TEXT_KEYS[4][0] == 's';
  }

  lemma SectionEffect(build: Build, config: Json, section: string, value: Json)
    requires SectionNamed(section).Some?
    ensures RootKey(build, config, [], Entry(section, value)).writes
            == map[section := SectionOf(build, SectionNamed(section).value, ROOT.Child(section), value).value]
  {
    SectionIsNoOther(section);
  }

  function InSection(section: Option<Json>, name: string): Option<Json> {
    if section.Some? then Get(section.value, name) else None
  }

  /** Held exactly when it says what it sends, and then its words. */
  predicate CommandAs(spelled: Option<Json>, held: Option<Json>, key: string) {
    && (held.Some? <==> spelled.Some? && WordIn(Get(spelled.value, "template")).Some?)
    && (held.Some? ==>
        Get(held.value, key)
        == if key in ["template", "description", "agent", "model"] then WordIn(Get(spelled.value, key)) else None)
  }

  /** Each command of the document: there if it says what it sends, and then the words of its four fields. */
  lemma CommandImported(build: Build, config: Json, name: string, key: string)
    requires config.Object? && WellFormed(config)
    ensures CommandAs(Get2(config, "command", name), Get2(ImportOf(build, config).0, "command", name), key)
  {
    SectionMade(build, config, Commands);
    CommandJudged(build, ROOT.Child("command"), Get(config, "command"), Get(ImportOf(build, config).0, "command"), name,
                  key);
  }

  lemma CommandFinds(build: Build, at: Place, value: Json, name: string)
    requires WellFormed(value)
    ensures var kept, spelled := SectionOf(build, Commands, at, value).value, Get(value, name);
            (if kept.Some? then Get(kept.value, name) else None)
            == if spelled.Some? then CommandOf(at.Child(name), spelled.value).value else None
  {
    if value.Object? {
      SectionFinds(build, Commands, at, value, name);
    }
  }

  lemma CommandJudged(build: Build, at: Place, section: Option<Json>, kept: Option<Json>, name: string, key: string)
    requires section.Some? ==> WellFormed(section.value)
    requires kept == if section.Some? then SectionOf(build, Commands, at, section.value).value else None
    ensures CommandAs(InSection(section, name), InSection(kept, name), key)
  {
    if section.Some? {
      CommandFinds(build, at, section.value, name);
      var spelled := Get(section.value, name);
      if spelled.Some? {
        CommandSpelled(at.Child(name), spelled.value, key);
      }
    }
  }

  lemma CommandSpelled(at: Place, value: Json, key: string)
    requires WellFormed(value)
    ensures CommandAs(Some(value), CommandOf(at, value).value, key)
  {
    CommandNeedsTemplate(at, value);
    if CommandOf(at, value).value.Some? {
      CommandHolds(at, value, key);
    }
  }

  /** Held exactly when what was spelled is whole, and then as it was spelled. */
  ghost predicate ServerAs(build: Build, spelled: Option<Json>, held: Option<Json>) {
    && (held.Some? <==> spelled.Some? && ServerWhole(build, spelled.value))
    && (held.Some? ==> ServerHas(spelled.value, held.value))
  }

  /** Each MCP server of the document: there if it is whole, and then what was spelled for its kind. */
  lemma ServerImported(build: Build, config: Json, name: string)
    requires config.Object? && WellFormed(config)
    ensures ServerAs(build, Get2(config, "mcp", name), Get2(ImportOf(build, config).0, "mcp", name))
  {
    SectionMade(build, config, Servers);
    ServerJudged(build, ROOT.Child("mcp"), Get(config, "mcp"), Get(ImportOf(build, config).0, "mcp"), name);
  }

  lemma ServerFinds(build: Build, at: Place, value: Json, name: string)
    requires WellFormed(value)
    ensures var kept, spelled := SectionOf(build, Servers, at, value).value, Get(value, name);
            (if kept.Some? then Get(kept.value, name) else None)
            == if spelled.Some? then ServerOf(build, at.Child(name), spelled.value).value else None
  {
    if value.Object? {
      SectionFinds(build, Servers, at, value, name);
    }
  }

  lemma ServerJudged(build: Build, at: Place, section: Option<Json>, kept: Option<Json>, name: string)
    requires section.Some? ==> WellFormed(section.value)
    requires kept == if section.Some? then SectionOf(build, Servers, at, section.value).value else None
    ensures ServerAs(build, InSection(section, name), InSection(kept, name))
  {
    if section.Some? {
      ServerFinds(build, at, section.value, name);
      var spelled := Get(section.value, name);
      if spelled.Some? {
        ServerSpelled(build, at.Child(name), spelled.value);
      }
    }
  }

  lemma ServerSpelled(build: Build, at: Place, value: Json)
    requires WellFormed(value)
    ensures ServerAs(build, Some(value), ServerOf(build, at, value).value)
  {
    ServerCarriedExactly(build, at, value);
    if ServerOf(build, at, value).value.Some? {
      ServerHolds(build, at, value);
    }
  }

  /** Held exactly when what was spelled is whole, and then as it was spelled. */
  ghost predicate LspAs(name: string, spelled: Option<Json>, held: Option<Json>) {
    && (held.Some? <==> spelled.Some? && LspWhole(name, spelled.value))
    && (held.Some? ==> LspHas(spelled.value, held.value))
  }

  /** Each language server: there if it is whole, and then its five fields. */
  lemma LspImported(build: Build, config: Json, name: string)
    requires config.Object? && WellFormed(config)
    ensures LspAs(name, Get2(config, "lsp", name), Get2(ImportOf(build, config).0, "lsp", name))
  {
    LspSection(build, config);
    LspJudged(build, ROOT.Child("lsp"), Get(config, "lsp"), Get(ImportOf(build, config).0, "lsp"), name);
  }

  lemma LspSection(build: Build, config: Json)
    requires config.Object? && WellFormed(config)
    ensures Get(ImportOf(build, config).0, "lsp")
            == var spelled := Get(config, "lsp");
               if spelled.Some? then SectionOf(build, LanguageServers, ROOT.Child("lsp"), spelled.value).value else None
  {
    SectionMade(build, config, LanguageServers);
  }

  lemma LspFinds(build: Build, at: Place, value: Json, name: string)
    requires WellFormed(value)
    ensures var kept, spelled := SectionOf(build, LanguageServers, at, value).value, Get(value, name);
            (if kept.Some? then Get(kept.value, name) else None)
            == if spelled.Some? then LspOf(at.Child(name), name, spelled.value).value else None
  {
    if value.Object? {
      SectionFinds(build, LanguageServers, at, value, name);
    }
  }

  lemma LspJudged(build: Build, at: Place, section: Option<Json>, kept: Option<Json>, name: string)
    requires section.Some? ==> WellFormed(section.value)
    requires kept == if section.Some? then SectionOf(build, LanguageServers, at, section.value).value else None
    ensures LspAs(name, InSection(section, name), InSection(kept, name))
  {
    if section.Some? {
      LspFinds(build, at, section.value, name);
      var spelled := Get(section.value, name);
      if spelled.Some? {
        LspSpelled(at.Child(name), name, spelled.value);
      }
    }
  }

  lemma LspSpelled(at: Place, name: string, value: Json)
    requires WellFormed(value)
    ensures LspAs(name, Some(value), LspOf(at, name, value).value)
  {
    LspCarriedExactly(at, name, value);
    if LspOf(at, name, value).value.Some? {
      LspHolds(at, name, value);
    }
  }

  /** Held exactly when what was spelled is whole, and then as it was spelled. */
  ghost predicate ProviderAs(build: Build, id: string, spelled: Option<Json>, held: Option<Json>) {
    && (held.Some? <==> spelled.Some? && ProviderWhole(build, id, spelled.value))
    && (held.Some? ==> ProviderHas(spelled.value, held.value))
  }

  /** Each provider: there if it is whole, and then its wire, its address and its headers. */
  lemma ProviderImported(build: Build, config: Json, id: string)
    requires config.Object? && WellFormed(config)
    ensures ProviderAs(build, id, Get2(config, "provider", id), Get2(ImportOf(build, config).0, "provider", id))
  {
    ProviderSection(build, config);
    ProviderJudged(build, ROOT.Child("provider"), Get(config, "provider"), Get(ImportOf(build, config).0, "provider"),
                   id);
  }

  lemma ProviderSection(build: Build, config: Json)
    requires config.Object? && WellFormed(config)
    ensures Get(ImportOf(build, config).0, "provider")
            == var spelled := Get(config, "provider");
               if spelled.Some? then SectionOf(build, Providers, ROOT.Child("provider"), spelled.value).value else None
  {
    SectionMade(build, config, Providers);
  }

  lemma ProviderFinds(build: Build, at: Place, value: Json, id: string)
    requires WellFormed(value)
    ensures var kept, spelled := SectionOf(build, Providers, at, value).value, Get(value, id);
            (if kept.Some? then Get(kept.value, id) else None)
            == if spelled.Some? then ProviderOf(build, at.Child(id), id, spelled.value).value else None
  {
    if value.Object? {
      SectionFinds(build, Providers, at, value, id);
    }
  }

  lemma ProviderJudged(build: Build, at: Place, section: Option<Json>, kept: Option<Json>, id: string)
    requires section.Some? ==> WellFormed(section.value)
    requires kept == if section.Some? then SectionOf(build, Providers, at, section.value).value else None
    ensures ProviderAs(build, id, InSection(section, id), InSection(kept, id))
  {
    if section.Some? {
      ProviderFinds(build, at, section.value, id);
      var spelled := Get(section.value, id);
      if spelled.Some? {
        ProviderSpelled(build, at.Child(id), id, spelled.value);
      }
    }
  }

  lemma ProviderSpelled(build: Build, at: Place, id: string, value: Json)
    requires WellFormed(value)
    ensures ProviderAs(build, id, Some(value), ProviderOf(build, at, id, value).value)
  {
    ProviderCarriedExactly(build, at, id, value);
    if ProviderOf(build, at, id, value).value.Some? {
      ProviderHoldsAll(build, at, id, value);
    }
  }

  /** An `lsp` that is a flag stays one. */
  lemma LspFlagImported(build: Build, config: Json)
    requires config.Object? && WellFormed(config) && Get(config, "lsp").Some? && Get(config, "lsp").value.Bool?
    ensures Get(ImportOf(build, config).0, "lsp") == Get(config, "lsp")
  {
    KeyNames(LanguageServers);
    SectionIsNoOther("lsp");
    RootSlotHeld(build, config, "lsp");
    SectionEffect(build, config, "lsp", Get(config, "lsp").value);
  }

  // Agents.

  /** What an agent of the document is made of: the mode of its name where that is an object, and else its own entry. */
  function AgentSpelled(config: Json, name: string): Option<(Json, bool)> {
    var mode, own := Get2(config, "mode", name), Get2(config, "agent", name);
    if mode.Some? && mode.value.Object? then Some((mode.value, true))
    else if own.Some? && own.value.Object? then Some((own.value, false))
    else None
  }

  /** One field of an agent: its words, its flags, and a mode that is always primary where a mode made the agent. */
  function AgentHas(value: Json, primary: bool, key: string): Option<Json> {
    var spelled := Get(value, key);
    if key in ["model", "prompt", "description"] then WordIn(spelled)
    else if key in ["hidden", "disable"] then FlagIn(spelled)
    else if key == "mode" then
      if primary then Some(Str("primary"))
      else if spelled in [Some(Str("primary")), Some(Str("subagent")), Some(Str("all"))] then spelled
      else None
    else if key == "permission" then PermissionOf(ROOT, Get(value, "tools"), Get(value, "permission")).value
    else None
  }

  function AgentPlace(name: string, primary: bool): Place {
    (if primary then MODE_PLACE else ROOT.Child(AGENT)).Child(name)
  }

  lemma SpelledWellFormed(config: Json, name: string)
    requires WellFormed(config)
    ensures var spelled := AgentSpelled(config, name);
            spelled.Some? ==> WellFormed(spelled.value.0) && spelled.value.0.Object?
  {}

  lemma AgentMade(build: Build, config: Json, name: string)
    requires config.Object? && WellFormed(config)
    ensures var spelled := AgentSpelled(config, name);
            Get2(ImportOf(build, config).0, AGENT, name)
            == if spelled.None? then None
               else AgentOf(AgentPlace(name, spelled.value.1), spelled.value.0, spelled.value.1).value
  {
    AgentsAfterModes(build, config, name);
    RootFinds(build, config, AGENT);
    ModesHold(build, config, name);
    ReplacedByItsMode(config, name);
    OwnAgents(build, config, name);
    if name in ReplacedAgents(config) {
      ModeMade(config, name);
    } else {
      OwnMade(config, name);
    }
  }

  lemma ModeMade(config: Json, name: string)
    requires Get2(config, MODE, name).Some? && Get2(config, MODE, name).value.Object?
    ensures AgentSpelled(config, name) == Some((Get2(config, MODE, name).value, true))
    ensures ModeDefinition(config, name)
            == AgentOf(AgentPlace(name, true), Get2(config, MODE, name).value, true).value
  {}

  lemma OwnMade(config: Json, name: string)
    requires !(Get2(config, MODE, name).Some? && Get2(config, MODE, name).value.Object?)
    ensures var own := Get2(config, AGENT, name);
            (if own.Some? then AgentOf(ROOT.Child(AGENT).Child(name), own.value, false).value else None)
            == var spelled := AgentSpelled(config, name);
               if spelled.None? then None
               else AgentOf(AgentPlace(name, spelled.value.1), spelled.value.0, spelled.value.1).value
  {}

  lemma {:induction false} DerivedAnywhere(at: Place, other: Place, replaced: bool, claims: seq<Entry>,
                                           tools: seq<Entry>)
    ensures Derived(at, replaced, claims, tools).0 == Derived(other, replaced, claims, tools).0
  {
    if tools != [] {
      DerivedAnywhere(at, other, replaced, claims, tools[..|tools| - 1]);
    }
  }

  lemma {:induction false} ExplicitAnywhere(at: Place, other: Place, rules: seq<Entry>, entries: seq<Entry>)
    ensures Explicit(at, rules, entries).0 == Explicit(other, rules, entries).0
  {
    if entries != [] {
      var last := entries[|entries| - 1];
      ExplicitAnywhere(at, other, rules, entries[..|entries| - 1]);
      GuardedAnywhere(at.Child(last.key).from, other.Child(last.key).from, last.value);
    }
  }

  /** What rules come to is the same wherever they are spelled. */
  lemma PermissionAnywhere(at: Place, other: Place, tools: Option<Json>, explicit: Option<Json>)
    ensures PermissionOf(at, tools, explicit).value == PermissionOf(other, tools, explicit).value
  {
    var replaced, claims := explicit.Some? && explicit.value.Str?, EntriesIn(explicit);
    DerivedAnywhere(at, other, replaced, claims, EntriesIn(tools));
    var rules := DerivedRules(at, tools, explicit).0;
    assert rules == DerivedRules(other, tools, explicit).0;
    if explicit.Some? && explicit.value.Object? {
      ExplicitAnywhere(at.Child(PERMISSION), other.Child(PERMISSION), rules, explicit.value.entries);
    }
  }

  /** One field of an agent, wherever the agent is spelled. */
  lemma AgentFields(at: Place, value: Json, primary: bool, key: string)
    requires WellFormed(value) && value.Object?
    ensures InSection(AgentOf(at, value, primary).value, key) == AgentHas(value, primary, key)
  {
    DefinitionHolds(at, value, primary, key);
    PermissionAnywhere(at, ROOT, Get(value, "tools"), Get(value, "permission"));
    AgentFieldKinds(value, primary, key);
  }

  lemma AgentFieldKinds(value: Json, primary: bool, key: string)
    ensures key in AGENT_FIELDS ==> FieldOf(value, key, primary) == AgentHas(value, primary, key)
    ensures key !in AGENT_FIELDS && key != PERMISSION ==> AgentHas(value, primary, key).None?
    ensures PERMISSION !in AGENT_FIELDS
  {
    assert AGENT_FIELDS == ["model", "prompt", "description", "mode", "hidden", "disable"];
    assert |PERMISSION| == 10 && |"model"| == 5 && |"prompt"| == 6 && |"description"| == 11 && |"mode"| == 4
        && |"hidden"| == 6 && |"disable"| == 7 && "hidden"[0] == 'h' && "prompt"[0] == 'p';
  }

  /** A mode's agent is always there; another is when it has anything. */
  lemma AgentIsThere(at: Place, value: Json, primary: bool)
    requires WellFormed(value) && value.Object?
    ensures AgentOf(at, value, primary).value.Some? <==> primary || exists key :: AgentHas(value, primary, key).Some?
  {
    var kept := AgentOf(at, value, primary).value;
    DefinitionHolds(at, value, primary, "");
    if kept.Some? {
      var key := kept.value.entries[0].key;
      AgentFields(at, value, primary, key);
      assert AgentHas(value, primary, key).Some?;
    }
    if key :| AgentHas(value, primary, key).Some? {
      AgentFields(at, value, primary, key);
    }
  }

  /** Held for a mode, or for an agent that has anything; and what it holds under a key. */
  ghost predicate AgentAs(spelled: Option<(Json, bool)>, held: Option<Json>, key: string) {
    && (held.Some? <==> spelled.Some?
                        && (spelled.value.1 || exists k :: AgentHas(spelled.value.0, spelled.value.1, k).Some?))
    && InSection(held, key) == if spelled.Some? then AgentHas(spelled.value.0, spelled.value.1, key) else None
  }

  /**
   * Each agent of the document: the mode of its name where that is an object, and else its own entry, if it has
   * anything; and each of its fields.
   */
  lemma AgentImported(build: Build, config: Json, name: string, key: string)
    requires config.Object? && WellFormed(config)
    ensures AgentAs(AgentSpelled(config, name), Get2(ImportOf(build, config).0, "agent", name), key)
  {
    AgentMade(build, config, name);
    SpelledWellFormed(config, name);
    AgentJudged(name, AgentSpelled(config, name), Get2(ImportOf(build, config).0, "agent", name), key);
  }

  lemma AgentJudged(name: string, spelled: Option<(Json, bool)>, held: Option<Json>, key: string)
    requires spelled.Some? ==> WellFormed(spelled.value.0) && spelled.value.0.Object?
    requires held
             == if spelled.None? then None
                else AgentOf(AgentPlace(name, spelled.value.1), spelled.value.0, spelled.value.1).value
    ensures AgentAs(spelled, held, key)
  {
    if spelled.Some? {
      AgentFields(AgentPlace(name, spelled.value.1), spelled.value.0, spelled.value.1, key);
      AgentIsThere(AgentPlace(name, spelled.value.1), spelled.value.0, spelled.value.1);
    }
  }

  lemma ReplacedByItsMode(config: Json, name: string)
    requires WellFormed(config)
    ensures name in ReplacedAgents(config)
            <==> Get2(config, MODE, name).Some? && Get2(config, MODE, name).value.Object?
  {
    var modes := Get(config, MODE);
    if modes.Some? && modes.value.Object? {
      var entries := modes.value.entries;
      var i := IndexOf(entries, name);
      assert i < |entries| ==> entries[i] in entries && entries[i].key == name;
      forall entry <- entries | entry.key == name ensures Find(entries, name) == Some(entry.value) {
        var j :| 0 <= j < |entries| && entries[j] == entry;
        IndexOfUnique(entries, j);
      }
    }
  }

  lemma OwnAgents(build: Build, config: Json, name: string)
    requires config.Object? && WellFormed(config)
    ensures Find(EntriesIn(Held(RootWalk(build, config).writes, AGENT)), name)
            == var own := Get2(config, AGENT, name);
               if own.Some? then AgentOf(ROOT.Child(AGENT).Child(name), own.value, false).value else None
  {
    assert |AGENT| == 5 && |PERMISSION| == 10 && AGENT[0] == 'a' && TOOLS[0] == 't';
    SlotHeld(build, config, AGENT);
    if Get(config, AGENT).Some? {
      var value := Get(config, AGENT).value;
      SectionEffect(build, config, AGENT, value);
      if value.Object? {
        SectionFinds(build, Agents(false), ROOT.Child(AGENT), value, name);
      }
    }
  }

  // Decisions.

  /**
   * A tool the config turned on is allowed by the imported rules, and one it turned off is denied, whatever is
   * called of it, as long as nothing explicit covers it and no other tool's name does from a later place.
   */
  lemma ImportedToolDecides(build: Build, config: Json, tools: seq<Entry>, tool: string, first: nat, last: nat,
                            permission: string, pattern: string)
    requires config.Object? && WellFormed(config) && Get(config, "tools") == Some(Object(tools))
    requires Get(config, "permission").Some? ==> !Get(config, "permission").value.Str?
    requires FirstTurns(tools, tool, first) && LastTurns(tools, tool, last) && Matches(permission, tool)
    requires NothingAfter(tools, EntriesIn(Get(config, "permission")), first, permission)
    ensures Decides(Get(ImportOf(build, config).0, "permission"), Get(config, "permission"), permission, pattern,
                    tools[last].value.flag)
  {
    PermissionHeld(build, config);
    FlagDecides(ROOT, tools, Get(config, "permission"), tool, first, last, permission, pattern);
  }

  /** The same of an agent's own rules, wherever it is spelled. */
  lemma AgentToolDecides(at: Place, value: Json, primary: bool, tools: seq<Entry>, tool: string, first: nat, last: nat,
                         permission: string, pattern: string)
    requires WellFormed(value) && Get(value, "tools") == Some(Object(tools))
    requires Get(value, "permission").Some? ==> !Get(value, "permission").value.Str?
    requires FirstTurns(tools, tool, first) && LastTurns(tools, tool, last) && Matches(permission, tool)
    requires NothingAfter(tools, EntriesIn(Get(value, "permission")), first, permission)
    ensures Decides(InSection(AgentOf(at, value, primary).value, "permission"), Get(value, "permission"), permission,
                    pattern, tools[last].value.flag)
  {
    AgentFields(at, value, primary, "permission");
    assert AgentHas(value, primary, "permission")
        == PermissionOf(ROOT, Get(value, "tools"), Get(value, "permission")).value by {
      assert |"permission"| == 10 && |"model"| == 5 && |"prompt"| == 6 && |"description"| == 11 && |"mode"| == 4
          && |"hidden"| == 6 && |"disable"| == 7;
    }
    FlagDecides(ROOT, tools, Get(value, "permission"), tool, first, last, permission, pattern);
  }

  /** The document has no key beside the thirteen. */
  lemma NothingElse(build: Build, config: Json, key: string)
    requires config.Object? && WellFormed(config)
    requires key !in ["model", "small_model", "default_agent", "theme", "shell", "instructions", "permission", "agent",
                      "command", "mcp", "provider", "lsp", "snapshot"]
    ensures Get(ImportOf(build, config).0, key).None?
  {
    assert ROOT_ORDER
        == ["model", "small_model", "default_agent", "theme", "shell", "instructions", "permission", "agent",
            "command", "mcp", "provider", "lsp", "snapshot"];
    PresentFinds(ROOT_ORDER, RootWalk(build, config).writes[AGENT := FinalAgents(build, config)], key);
  }
}
