/**
 * What the assembled agents decide and are, told of the config, the files and what ships alone: which layer has
 * the word on a call, and what each shipped agent may do where nobody else has one.
 */
module AgentDecisions {
  import opened Optional
  import opened Permissions
  import opened ToolLists
  import opened Agents

  // What each layer says.

  /** The call asks for the permission of that name. */
  predicate Is(permission: string, name: string) {
    Normalize(permission) == name
  }

  /**
   * What every agent starts from: reading an env file asks, but for an example; the doors of plan mode are closed;
   * leaving the project asks.
   */
  function DefaultAnswer(permission: string, pattern: string): Option<Action> {
    if Is(permission, "read") then
      if Matches(pattern, "*.env.example") then Some(Allow)
      else if Matches(pattern, "*.env") || Matches(pattern, "*.env.*") then Some(Ask)
      else None
    else if Is(permission, "plan_enter") || Is(permission, "plan_exit") then Some(Deny)
    else if Is(permission, "external_directory") then Some(Ask)
    else None
  }

  /** What a shipped agent says for itself; `door` is asked where a person is watching. */
  function OwnAnswer(name: string, door: seq<Rule>, permission: string, pattern: string): Option<Action> {
    if name == "build" then
      if Is(permission, "plan_enter") then Some(Allow) else Decide(door, permission, pattern)
    else if name == "plan" then
      if Is(permission, "plan_exit") then Some(Allow)
      else if Is(permission, "edit") || Is(permission, "write") then Some(Deny)
      else if Is(permission, "task") && Is(pattern, "general") then Some(Deny)
      else Decide(door, permission, pattern)
    else if name == "general" then if Is(permission, "todowrite") then Some(Deny) else None
    else if name == "explore" then
      if Is(permission, "external_directory") || Is(permission, "bash") then Some(Ask)
      else if Normalize(permission) in ["grep", "glob", "read", "webfetch", "websearch"] then Some(Allow)
      else Some(Deny)
    else None
  }

  /** The rules of the files of a name: the last file's list first, then its own rules, then the file before. */
  function FilesAnswer(files: seq<File>, name: string, permission: string, pattern: string): Option<Action> {
    if files == [] then None
    else
      var n := |files| - 1;
      var below := FilesAnswer(files[..n], name, permission, pattern);
      if files[n].name != name then below
      else
        var listed := if files[n].tools.Some? then Decide(RulesFor(files[n].tools.value), permission, pattern)
                      else None;
        OrElse(listed, OrElse(Decide(files[n].definition.rules, permission, pattern), below))
  }

  /** The rules of the config's own entry of a name. */
  function EntryAnswer(entries: seq<Named>, name: string, permission: string, pattern: string): Option<Action> {
    if entries == [] then None
    else
      var last := entries[|entries| - 1];
      if last.name == name then Decide(last.definition.rules, permission, pattern)
      else EntryAnswer(entries[..|entries| - 1], name, permission, pattern)
  }

  /** Each layer in turn: the config's entry, the files, the rules of the config, what ships with the agent, and what
    * ships with all. */
  function Answer(config: Config, files: seq<File>, name: string, door: seq<Rule>, permission: string,
                  pattern: string): Option<Action>
  {
    OrElse(EntryAnswer(config.entries, name, permission, pattern),
           OrElse(FilesAnswer(files, name, permission, pattern),
                  OrElse(Decide(config.permission, permission, pattern),
                         OrElse(OwnAnswer(name, door, permission, pattern), DefaultAnswer(permission, pattern)))))
  }

  // One rule at a time.

  lemma OneMore(rules: seq<Rule>, last: Rule, permission: string, pattern: string)
    ensures Decide(rules + [last], permission, pattern)
            == if Answers(last, permission, pattern) then Some(last.action) else Decide(rules, permission, pattern)
  {
    assert (rules + [last])[..|rules|] == rules;
  }

  lemma AsksBy(name: string, pattern: string, action: Action, permission: string, asked: string)
    requires NameCharacters(name)
    ensures Answers(Rule(name, pattern, action), permission, asked)
            <==> Is(permission, name) && (pattern == ANY || Matches(asked, pattern))
  {
    NamesArePlain(name);
    LiteralMatches(permission, name);
    AnyMatches(asked);
  }

  lemma ThreeMore(rules: seq<Rule>, a: Rule, b: Rule, c: Rule, permission: string, pattern: string)
    ensures Decide(rules + [a, b, c], permission, pattern)
            == if Answers(c, permission, pattern) then Some(c.action)
               else if Answers(b, permission, pattern) then Some(b.action)
               else if Answers(a, permission, pattern) then Some(a.action)
               else Decide(rules, permission, pattern)
  {
    OneMore(rules, a, permission, pattern);
    OneMore(rules + [a], b, permission, pattern);
    OneMore(rules + [a] + [b], c, permission, pattern);
    assert rules + [a, b, c] == rules + [a] + [b] + [c];
  }

  lemma ReadsDecide(rules: seq<Rule>, permission: string, pattern: string)
    ensures Decide(rules + [Rule("read", "*.env", Ask), Rule("read", "*.env.*", Ask),
                            Rule("read", "*.env.example", Allow)], permission, pattern)
            == if !Is(permission, "read") then Decide(rules, permission, pattern)
               else if Matches(pattern, "*.env.example") then Some(Allow)
               else if Matches(pattern, "*.env") || Matches(pattern, "*.env.*") then Some(Ask)
               else Decide(rules, permission, pattern)
  {
    AsksBy("read", "*.env", Ask, permission, pattern);
    AsksBy("read", "*.env.*", Ask, permission, pattern);
    AsksBy("read", "*.env.example", Allow, permission, pattern);
    ThreeMore(rules, Rule("read", "*.env", Ask), Rule("read", "*.env.*", Ask), Rule("read", "*.env.example", Allow),
              permission, pattern);
    EnvPatterns();
  }

  lemma DoorsDecide(permission: string, pattern: string)
    ensures Decide(Doors(), permission, pattern)
            == if Is(permission, "plan_enter") || Is(permission, "plan_exit") then Some(Deny)
               else if Is(permission, "external_directory") then Some(Ask)
               else None
  {
    var gate, leave, enter := Rule("external_directory", ANY, Ask), Rule("plan_exit", ANY, Deny),
      Rule("plan_enter", ANY, Deny);
    AsksBy("external_directory", ANY, Ask, permission, pattern);
    AsksBy("plan_exit", ANY, Deny, permission, pattern);
    AsksBy("plan_enter", ANY, Deny, permission, pattern);
    ThreeMore([], gate, leave, enter, permission, pattern);
    assert Doors() == [] + [gate, leave, enter];
  }

  function Doors(): seq<Rule> {
    [Rule("external_directory", ANY, Ask), Rule("plan_exit", ANY, Deny), Rule("plan_enter", ANY, Deny)]
  }

  lemma DefaultsDecide(permission: string, pattern: string)
    ensures Decide(Defaults(), permission, pattern) == DefaultAnswer(permission, pattern)
  {
    DoorsDecide(permission, pattern);
    ReadsDecide(Doors(), permission, pattern);
    assert Defaults()
        == Doors() + [Rule("read", "*.env", Ask), Rule("read", "*.env.*", Ask), Rule("read", "*.env.example", Allow)];
    NamesApart(permission);
  }

  lemma EnvPatterns()
    ensures "*.env" != ANY && "*.env.*" != ANY && "*.env.example" != ANY
  {
    assert |ANY| == 1;
  }

  lemma NamesApart(permission: string)
    ensures Is(permission, "read") ==> !Is(permission, "plan_enter") && !Is(permission, "plan_exit")
                                       && !Is(permission, "external_directory")
    ensures Is(permission, "external_directory") ==> !Is(permission, "plan_enter") && !Is(permission, "plan_exit")
  {
    assert |"read"| == 4 && |"plan_enter"| == 10 && |"plan_exit"| == 9 && |"external_directory"| == 18;
  }

  // The shipped agents.

  lemma Layers(base: seq<Rule>, door: seq<Rule>, own: seq<Rule>, user: seq<Rule>, permission: string, pattern: string)
    ensures Decide(base + door + own + user, permission, pattern)
            == OrElse(Decide(user, permission, pattern),
                      OrElse(Decide(own, permission, pattern),
                             OrElse(Decide(door, permission, pattern), Decide(base, permission, pattern))))
  {
    DecideAppend(base, door, permission, pattern);
    DecideAppend(base + door, own, permission, pattern);
    DecideAppend(base + door + own, user, permission, pattern);
  }

  /** The rules a shipped agent has beside the defaults, the door and the config's. */
  function Delta(name: string): seq<Rule> {
    if name == "build" then [Rule("plan_enter", ANY, Allow)]
    else if name == "plan" then
      [Rule("task", "general", Deny), Rule("edit", ANY, Deny), Rule("write", ANY, Deny), Rule("plan_exit", ANY, Allow)]
    else if name == "general" then [Rule("todowrite", ANY, Deny)]
    else if name == "explore" then
      [Rule(ANY, ANY, Deny), Rule("grep", ANY, Allow), Rule("glob", ANY, Allow), Rule("read", ANY, Allow),
       Rule("webfetch", ANY, Allow), Rule("websearch", ANY, Allow), Rule("bash", ANY, Ask),
       Rule("external_directory", ANY, Ask)]
    else []
  }

  /** The door of an attended agent, and of no other. */
  function DoorOf(name: string, door: seq<Rule>): seq<Rule> {
    if name == "build" || name == "plan" then door else []
  }

  lemma OneRule(rule: Rule, permission: string, pattern: string)
    ensures Decide([rule], permission, pattern)
            == if Answers(rule, permission, pattern) then Some(rule.action) else None
  {
    OneMore([], rule, permission, pattern);
    assert [] + [rule] == [rule];
  }

  lemma PlanDelta(permission: string, pattern: string)
    ensures Decide(Delta("plan"), permission, pattern)
            == if Is(permission, "plan_exit") then Some(Allow)
               else if Is(permission, "edit") || Is(permission, "write") then Some(Deny)
               else if Is(permission, "task") && Is(pattern, "general") then Some(Deny)
               else None
  {
    var first := Rule("task", "general", Deny);
    TaskRule(permission, pattern);
    NamedMore([first], "edit", Deny, permission, pattern);
    NamedMore([first] + [Rule("edit", ANY, Deny)], "write", Deny, permission, pattern);
    NamedMore([first] + [Rule("edit", ANY, Deny)] + [Rule("write", ANY, Deny)], "plan_exit", Allow, permission,
              pattern);
    assert Delta("plan")
        == [first] + [Rule("edit", ANY, Deny)] + [Rule("write", ANY, Deny)] + [Rule("plan_exit", ANY, Allow)];
  }

  lemma TaskRule(permission: string, pattern: string)
    ensures Decide([Rule("task", "general", Deny)], permission, pattern)
            == if Is(permission, "task") && Is(pattern, "general") then Some(Deny) else None
  {
    NamesArePlain("general");
    LiteralMatches(pattern, "general");
    AsksBy("task", "general", Deny, permission, pattern);
    OneRule(Rule("task", "general", Deny), permission, pattern);
    assert |"general"| == 7 && |ANY| == 1;
  }

  lemma NamedMore(rules: seq<Rule>, name: string, action: Action, permission: string, pattern: string)
    requires NameCharacters(name)
    ensures Decide(rules + [Rule(name, ANY, action)], permission, pattern)
            == if Is(permission, name) then Some(action) else Decide(rules, permission, pattern)
  {
    AsksBy(name, ANY, action, permission, pattern);
    OneMore(rules, Rule(name, ANY, action), permission, pattern);
  }

  /** The tools that only look, and may. */
  const LOOKING := ["grep", "glob", "read", "webfetch", "websearch"]

  /** Names of letters cover what asks for one of them. */
  lemma NamesCover(names: seq<string>, permission: string)
    requires forall i :: 0 <= i < |names| ==> NameCharacters(names[i])
    ensures AnyCovers(names, permission) <==> Normalize(permission) in names
  {
    forall name | name in names ensures Matches(permission, name) <==> Is(permission, name) {
      var i :| 0 <= i < |names| && names[i] == name;
      NamesArePlain(name);
      LiteralMatches(permission, name);
    }
  }

  lemma LookingNames()
    ensures forall i :: 0 <= i < |LOOKING| ==> NameCharacters(LOOKING[i])
  {
    assert LOOKING == ["grep", "glob", "read", "webfetch", "websearch"];
    assert NameCharacters("grep") && NameCharacters("glob") && NameCharacters("read") && NameCharacters("webfetch")
        && NameCharacters("websearch");
  }

  lemma ExploreLooks(permission: string, pattern: string)
    ensures Decide([Rule(ANY, ANY, Deny)] + Naming(LOOKING, Allow), permission, pattern)
            == if Normalize(permission) in LOOKING then Some(Allow) else Some(Deny)
  {
    AnyMatches(permission);
    AnyMatches(pattern);
    OneRule(Rule(ANY, ANY, Deny), permission, pattern);
    NamingDecides(LOOKING, Allow, permission, pattern);
    LookingNames();
    NamesCover(LOOKING, permission);
    DecideAppend([Rule(ANY, ANY, Deny)], Naming(LOOKING, Allow), permission, pattern);
  }

  lemma ExploreDelta(permission: string, pattern: string)
    ensures Decide(Delta("explore"), permission, pattern)
            == if Is(permission, "external_directory") || Is(permission, "bash") then Some(Ask)
               else if Normalize(permission) in LOOKING then Some(Allow)
               else Some(Deny)
  {
    var looks := [Rule(ANY, ANY, Deny)] + Naming(LOOKING, Allow);
    ExploreLooks(permission, pattern);
    NamedMore(looks, "bash", Ask, permission, pattern);
    NamedMore(looks + [Rule("bash", ANY, Ask)], "external_directory", Ask, permission, pattern);
    assert Delta("explore") == looks + [Rule("bash", ANY, Ask)] + [Rule("external_directory", ANY, Ask)];
  }

  lemma DeltaDecides(name: string, door: seq<Rule>, permission: string, pattern: string)
    ensures OrElse(Decide(Delta(name), permission, pattern), Decide(DoorOf(name, door), permission, pattern))
            == OwnAnswer(name, door, permission, pattern)
  {
    assert |"build"| == 5 && |"plan"| == 4 && |"general"| == 7 && |"explore"| == 7 && "general"[0] == 'g';
    if name == "build" {
      AsksBy("plan_enter", ANY, Allow, permission, pattern);
      OneRule(Delta(name)[0], permission, pattern);
    } else if name == "plan" {
      PlanDelta(permission, pattern);
    } else if name == "general" {
      AsksBy("todowrite", ANY, Deny, permission, pattern);
      OneRule(Delta(name)[0], permission, pattern);
    } else if name == "explore" {
      ExploreDelta(permission, pattern);
    }
  }

  /** The agents that ship, in order. */
  const SHIPPED :=
    ["build", "plan", "general", "explore", "analyst", "executor", "verifier", "critic", "debugger", "reviewer"]

  /** The two a person works with are primary, the other eight are sent for, and anything else may be either. */
  function ModeFrom(name: string): Mode {
    if name == "build" || name == "plan" then Primary else if name in SHIPPED then Subagent else All
  }

  function RulesFrom(name: string, config: Config, door: seq<Rule>): seq<Rule> {
    Defaults() + DoorOf(name, door) + Delta(name) + config.permission
  }

  /** What answers to a name before any tier speaks. */
  function From(name: string, config: Config, door: seq<Rule>, words: string -> Words): Agent {
    var ships := name in SHIPPED;
    Agent(name, if ships then Some(words(name).description) else None, ModeFrom(name), false,
          if ships then words(name).prompt else None, None, RulesFrom(name, config, door))
  }

  lemma NoDelta(name: string)
    requires name !in ["build", "plan", "general", "explore"]
    ensures Delta(name) == [] && forall door :: DoorOf(name, door) == []
  {}

  lemma FirstNames(i: nat)
    requires i < 10
    ensures i >= 4 ==> SHIPPED[i] == ROLES[i - 4] && SHIPPED[i] !in ["build", "plan", "general", "explore"]
    ensures i >= 2 ==> SHIPPED[i] != "build" && SHIPPED[i] != "plan"
    ensures SHIPPED[i] in SHIPPED
  {
    assert |"build"| == 5 && |"plan"| == 4 && |"general"| == 7 && |"explore"| == 7;
    assert "general"[0] == 'g' && "explore"[2] == 'p' && "explore"[0] == 'e';
    assert SHIPPED[4][0] == 'a' && |SHIPPED[5]| == 8 && |SHIPPED[6]| == 8 && SHIPPED[7][0] == 'c' && |SHIPPED[8]| == 8
        && |SHIPPED[9]| == 8 && |SHIPPED[4]| == 7 && |SHIPPED[7]| == 6 && |SHIPPED[2]| == 7 && |SHIPPED[3]| == 7;
  }

  lemma BuiltinIs(config: Config, door: seq<Rule>, words: string -> Words, i: nat)
    requires i < 10
    ensures |Builtins(config, door, words)| == 10
    ensures Builtins(config, door, words)[i] == From(SHIPPED[i], config, door, words)
  {
    FirstNames(i);
    var agent := Builtins(config, door, words)[i];
    var name := SHIPPED[i];
    if i >= 4 {
      NoDelta(name);
      assert RulesFrom(name, config, door) == Defaults() + config.permission;
    } else if i == 0 {
      assert agent.rules == RulesFrom("build", config, door);
    } else if i == 1 {
      assert |"build"| == 5 && |"plan"| == 4;
      assert agent.rules == RulesFrom("plan", config, door);
    } else if i == 2 {
      assert |"build"| == 5 && |"plan"| == 4 && |"general"| == 7;
      assert agent.rules == RulesFrom("general", config, door);
    } else {
      assert |"build"| == 5 && |"plan"| == 4 && |"explore"| == 7 && "general"[0] == 'g' && "explore"[0] == 'e';
      assert agent.rules == RulesFrom("explore", config, door);
    }
  }

  lemma LookupBuiltin(config: Config, door: seq<Rule>, words: string -> Words, name: string)
    ensures DistinctNames(Builtins(config, door, words))
    ensures Lookup(Builtins(config, door, words), name)
            == if name in SHIPPED then Some(From(name, config, door, words)) else None
  {
    var agents := Builtins(config, door, words);
    BuiltinNames(config, door, words);
    forall i | 0 <= i < 10 ensures agents[i] == From(SHIPPED[i], config, door, words) {
      BuiltinIs(config, door, words, i);
    }
    var at := Position(agents, name);
    if name in SHIPPED {
      var i :| 0 <= i < |SHIPPED| && SHIPPED[i] == name;
      assert agents[i].name == name;
      assert at <= i;
    } else {
      forall i | 0 <= i < 10 ensures agents[i].name != name {
        FirstNames(i);
      }
    }
  }

  lemma BaseIs(config: Config, door: seq<Rule>, words: string -> Words, name: string)
    ensures Or(Lookup(Builtins(config, door, words), name), Fresh(name, config)) == From(name, config, door, words)
  {
    LookupBuiltin(config, door, words, name);
    if name !in SHIPPED {
      Unshipped(name);
      assert RulesFrom(name, config, door) == Defaults() + config.permission;
    }
  }

  lemma Unshipped(name: string)
    requires name !in SHIPPED
    ensures Delta(name) == [] && (forall door :: DoorOf(name, door) == []) && ModeFrom(name) == All
  {
    assert SHIPPED[0] == "build" && SHIPPED[1] == "plan" && SHIPPED[2] == "general" && SHIPPED[3] == "explore";
    assert SHIPPED[0] in SHIPPED && SHIPPED[1] in SHIPPED && SHIPPED[2] in SHIPPED && SHIPPED[3] in SHIPPED;
  }

  // The tiers.

  lemma {:induction false} FilesDecide(base: seq<Rule>, files: seq<File>, name: string, permission: string,
                                       pattern: string)
    ensures LastAnswer(base, Files(files, name), permission, pattern)
            == OrElse(FilesAnswer(files, name, permission, pattern), Decide(base, permission, pattern))
  {
    if files != [] {
      var n := |files| - 1;
      var tiers := Files(files[..n], name);
      FilesDecide(base, files[..n], name, permission, pattern);
      if files[n].name == name {
        var tier := TierOf(files[n]);
        assert (tiers + [tier])[..|tiers|] == tiers;
        DecideAppend(tier.definition.rules, tier.tools, permission, pattern);
      } else {
        assert tiers + [] == tiers;
      }
    }
  }

  lemma {:induction false} EntryDecides(entries: seq<Named>, name: string, permission: string, pattern: string)
    ensures EntryAnswer(entries, name, permission, pattern)
            == if Stated(entries, name).Some? then Decide(Stated(entries, name).value.rules, permission, pattern)
               else None
  {
    if entries != [] {
      EntryDecides(entries[..|entries| - 1], name, permission, pattern);
    }
  }

  lemma TiersDecide(base: seq<Rule>, config: Config, files: seq<File>, name: string, permission: string,
                    pattern: string)
    ensures LastAnswer(base, Tiers(config, files, name), permission, pattern)
            == OrElse(EntryAnswer(config.entries, name, permission, pattern),
                      OrElse(FilesAnswer(files, name, permission, pattern), Decide(base, permission, pattern)))
  {
    var stated, tiers := Stated(config.entries, name), Files(files, name);
    EntryDecides(config.entries, name, permission, pattern);
    FilesDecide(base, files, name, permission, pattern);
    if stated.Some? {
      var tier := Tier(stated.value, []);
      assert (tiers + [tier])[..|tiers|] == tiers;
      assert stated.value.rules + [] == stated.value.rules;
    } else {
      assert tiers + [] == tiers;
    }
  }

  // Who answers to a name.

  /** The config turns the name off. */
  predicate TurnedOff(entries: seq<Named>, name: string) {
    exists i :: 0 <= i < |entries| && entries[i].name == name && entries[i].definition.disable == Some(true)
  }

  /** Something ships under the name, or a file or the config speaks of it. */
  predicate SpokenOf(config: Config, files: seq<File>, name: string) {
    || name in SHIPPED
    || (exists i :: 0 <= i < |files| && files[i].name == name)
    || (exists i :: 0 <= i < |config.entries| && config.entries[i].name == name)
  }

  lemma {:induction false} FilesSpeak(files: seq<File>, name: string)
    ensures Files(files, name) != [] <==> exists i :: 0 <= i < |files| && files[i].name == name
  {
    if files != [] {
      var n := |files| - 1;
      FilesSpeak(files[..n], name);
      assert forall i :: 0 <= i < n ==> files[..n][i] == files[i];
    }
  }

  lemma {:induction false} EntrySpeaks(entries: seq<Named>, name: string)
    ensures Stated(entries, name).Some? <==> exists i :: 0 <= i < |entries| && entries[i].name == name
  {
    if entries != [] {
      var n := |entries| - 1;
      EntrySpeaks(entries[..n], name);
      assert forall i :: 0 <= i < n ==> entries[..n][i] == entries[i];
    }
  }

  lemma OffIsDisabled(config: Config, name: string)
    requires DistinctEntries(config.entries)
    ensures TurnedOff(config.entries, name) <==> Disabled(config, name)
  {
    var entries := config.entries;
    EntrySpeaks(entries, name);
    forall i | 0 <= i < |entries|
      && entries[i].name == name ensures Stated(entries, name) == Some(entries[i].definition)
    {
      StatedByName(entries, i);
    }
  }

  /** A name answers exactly when something speaks of it and the config does not turn it off. */
  lemma AnswersToItsName(config: Config, door: seq<Rule>, words: string -> Words, files: seq<File>, name: string)
    requires DistinctEntries(config.entries)
    ensures Lookup(Assembled(Builtins(config, door, words), config, files), name).Some?
            <==> SpokenOf(config, files, name) && !TurnedOff(config.entries, name)
  {
    LookupBuiltin(config, door, words, name);
    RegistryIsPerName(Builtins(config, door, words), config, files, name);
    OffIsDisabled(config, name);
    FilesSpeak(files, name);
    EntrySpeaks(config.entries, name);
  }

  lemma AssembledIs(config: Config, door: seq<Rule>, words: string -> Words, files: seq<File>, name: string)
    requires DistinctEntries(config.entries)
    ensures var agent := Lookup(Assembled(Builtins(config, door, words), config, files), name);
            agent.Some? ==> agent.value == Stack(From(name, config, door, words), Tiers(config, files, name))
  {
    LookupBuiltin(config, door, words, name);
    RegistryIsPerName(Builtins(config, door, words), config, files, name);
    BaseIs(config, door, words, name);
  }

  /**
   * Every agent decides every call by its layers in turn: what the config's entry says of it, else what its files
   * say, else the config's own rules, else what ships with the agent, else what ships with all.
   */
  lemma DecidesInTurn(config: Config, door: seq<Rule>, words: string -> Words, files: seq<File>, name: string,
                      permission: string, pattern: string)
    requires DistinctEntries(config.entries)
    ensures var agent := Lookup(Assembled(Builtins(config, door, words), config, files), name);
            agent.Some? ==>
              Decide(agent.value.rules, permission, pattern) == Answer(config, files, name, door, permission, pattern)
  {
    var base := From(name, config, door, words);
    AssembledIs(config, door, words, files, name);
    HighestTierDecides(base, Tiers(config, files, name), permission, pattern);
    TiersDecide(base.rules, config, files, name, permission, pattern);
    Layers(Defaults(), DoorOf(name, door), Delta(name), config.permission, permission, pattern);
    DeltaDecides(name, door, permission, pattern);
    DefaultsDecide(permission, pattern);
  }

  // What an agent is.

  /** The last file of a name to state a field. */
  function FilesSaid<T>(files: seq<File>, name: string, f: Definition -> Option<T>): Option<T> {
    if files == [] then None
    else
      var last := files[|files| - 1];
      var below := FilesSaid(files[..|files| - 1], name, f);
      if last.name == name then OrElse(f(last.definition), below) else below
  }

  function EntrySaid<T>(entries: seq<Named>, name: string, f: Definition -> Option<T>): Option<T> {
    if entries == [] then None
    else
      var last := entries[|entries| - 1];
      if last.name == name then f(last.definition) else EntrySaid(entries[..|entries| - 1], name, f)
  }

  /** What is said of a field: by the config's entry, and failing that by the last file to say it. */
  function Said<T>(config: Config, files: seq<File>, name: string, f: Definition -> Option<T>): Option<T> {
    OrElse(EntrySaid(config.entries, name, f), FilesSaid(files, name, f))
  }

  lemma {:induction false} LastSaidIs<T>(below: T, other: Option<T>, said: seq<Option<T>>)
    ensures LastSaid(below, said) == Or(LastOf(None, said), below)
    ensures LastOf(other, said) == OrElse(LastOf(None, said), other)
  {
    if said != [] {
      LastSaidIs(below, other, said[..|said| - 1]);
    }
  }

  lemma {:induction false} FilesSay<T>(files: seq<File>, name: string, f: Definition -> Option<T>)
    ensures LastOf(None, Each(Files(files, name), f)) == FilesSaid(files, name, f)
  {
    if files != [] {
      var n := |files| - 1;
      var tiers := Files(files[..n], name);
      FilesSay(files[..n], name, f);
      if files[n].name == name {
        EachGrows(tiers, TierOf(files[n]), f);
      } else {
        assert tiers + [] == tiers;
      }
    }
  }

  lemma {:induction false} EntrySays<T>(entries: seq<Named>, name: string, f: Definition -> Option<T>)
    ensures EntrySaid(entries, name, f)
            == if Stated(entries, name).Some? then f(Stated(entries, name).value) else None
  {
    if entries != [] {
      EntrySays(entries[..|entries| - 1], name, f);
    }
  }

  lemma TiersSay<T>(config: Config, files: seq<File>, name: string, f: Definition -> Option<T>)
    ensures LastOf(None, Each(Tiers(config, files, name), f)) == Said(config, files, name, f)
  {
    var stated, tiers := Stated(config.entries, name), Files(files, name);
    FilesSay(files, name, f);
    EntrySays(config.entries, name, f);
    if stated.Some? {
      EachGrows(tiers, Tier(stated.value, []), f);
    } else {
      assert tiers + [] == tiers;
    }
  }

  lemma FieldSaid<T>(config: Config, files: seq<File>, name: string, f: Definition -> Option<T>, below: T,
                     other: Option<T>)
    ensures LastSaid(below, Each(Tiers(config, files, name), f)) == Or(Said(config, files, name, f), below)
    ensures LastOf(other, Each(Tiers(config, files, name), f)) == OrElse(Said(config, files, name, f), other)
  {
    TiersSay(config, files, name, f);
    LastSaidIs(below, other, Each(Tiers(config, files, name), f));
  }

  /**
   * Every agent is what was said of it, by the config's entry or else by its last file to say it. Where neither did
   * it is as it ships; what does not ship is seen, may be started on or sent for, and has no words of its own.
   */
  lemma IsWhatWasSaid(config: Config, door: seq<Rule>, words: string -> Words, files: seq<File>, name: string)
    requires DistinctEntries(config.entries)
    ensures
      var found := Lookup(Assembled(Builtins(config, door, words), config, files), name);
      found.Some? ==>
        var agent, ships := found.value, name in SHIPPED;
        && agent.name == name
        && agent.mode == Or(Said(config, files, name, ModeIn), ModeFrom(name))
        && agent.hidden == Or(Said(config, files, name, HiddenIn), false)
        && agent.model == Said(config, files, name, ModelIn)
        && agent.prompt == OrElse(Said(config, files, name, PromptIn), if ships then words(name).prompt else None)
        && agent.description == OrElse(Said(config, files, name, DescriptionIn),
                                       if ships then Some(words(name).description) else None)
  {
    var base := From(name, config, door, words);
    AssembledIs(config, door, words, files, name);
    FieldSaid(config, files, name, ModeIn, base.mode, None);
    FieldSaid(config, files, name, HiddenIn, base.hidden, None);
    FieldSaid(config, files, name, ModelIn, "", base.model);
    FieldSaid(config, files, name, PromptIn, "", base.prompt);
    FieldSaid(config, files, name, DescriptionIn, "", base.description);
  }

  // Where a session starts.

  /** A person may be put on it. */
  predicate MayStart(agent: Agent) {
    (agent.mode == Primary || agent.mode == All) && !agent.hidden
  }

  /** With nothing named, the first agent a person may be put on, or the error that says there is none. */
  lemma StartsOnTheFirst(agents: seq<Agent>)
    ensures Resolved(agents, None) == Err(NoneVisible) <==> forall i :: 0 <= i < |agents| ==> !MayStart(agents[i])
    ensures forall i ::
            0 <= i < |agents| && MayStart(agents[i]) && (forall j :: 0 <= j < i ==> !MayStart(agents[j])) ==>
              Resolved(agents, None) == Ok(agents[i].name)
    ensures Resolved(agents, None).Ok? || Resolved(agents, None) == Err(NoneVisible)
  {
    forall i | 0 <= i < |agents| ensures MayStart(agents[i]) <==> agents[i].Selectable() {
    }
  }

  /** A name that was asked for starts the session, or is refused for the one reason there is. */
  lemma StartsAsNamed(agents: seq<Agent>, i: nat, name: string)
    requires DistinctNames(agents)
    ensures (forall j :: 0 <= j < |agents| ==> agents[j].name != name) ==>
            Resolved(agents, Some(name)) == Err(Unknown(name))
    ensures i < |agents| && agents[i].name == name ==>
              Resolved(agents, Some(name))
              == match agents[i].mode
                 case Subagent => Err(IsSubagent(name))
                 case _ => if agents[i].hidden then Err(IsHidden(name)) else Ok(name)
  {
    if i < |agents| && agents[i].name == name {
      assert Position(agents, name) == i;
    }
  }
}
