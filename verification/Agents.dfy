/** The agents a session may run as: what ships, then definition files, then the config's own map over both. */
module Agents {
  import opened Lists
  import opened Optional
  import opened Permissions
  import opened ToolLists

  datatype Mode = Primary | Subagent | All

  /** What a config entry may state about an agent. */
  datatype Definition = Definition(
    model: Option<string>,
    prompt: Option<string>,
    description: Option<string>,
    mode: Option<Mode>,
    hidden: Option<bool>,
    disable: Option<bool>,
    rules: seq<Rule>)

  /** What a definition file says: the same, and the tools its agent may use. */
  datatype File = File(name: string, definition: Definition, tools: Option<seq<string>>)

  datatype Agent = Agent(
    name: string,
    description: Option<string>,
    mode: Mode,
    hidden: bool,
    prompt: Option<string>,
    model: Option<string>,
    rules: seq<Rule>)
  {
    predicate Selectable() {
      mode != Subagent && !hidden
    }
  }

  datatype Named = Named(name: string, definition: Definition)

  /** The config as the registry reads it. `entries` is its `agent` map, by name. */
  datatype Config = Config(entries: seq<Named>, permission: seq<Rule>, flag: Option<string>, chosen: Option<string>)

  predicate DistinctNames(agents: seq<Agent>) {
    forall i, j :: 0 <= i < j < |agents| ==> agents[i].name != agents[j].name
  }

  predicate DistinctEntries(entries: seq<Named>) {
    forall i, j :: 0 <= i < j < |entries| ==> entries[i].name != entries[j].name
  }

  /** The rules every agent starts from. */
  function Defaults(): seq<Rule> {
    [Rule(EXTERNAL_DIRECTORY, ANY, Ask), Rule("plan_exit", ANY, Deny), Rule("plan_enter", ANY, Deny),
     Rule("read", "*.env", Ask), Rule("read", "*.env.*", Ask), Rule("read", "*.env.example", Allow)]
  }

  function Fresh(name: string, config: Config): Agent {
    Agent(name, None, All, false, None, None, Defaults() + config.permission)
  }

  function Position(agents: seq<Agent>, name: string): (i: nat)
    ensures i <= |agents|
    ensures i < |agents| ==> agents[i].name == name
    ensures forall j :: 0 <= j < i ==> agents[j].name != name
  {
    FirstWhere(agents, (agent: Agent) => agent.name == name)
  }

  function Lookup(agents: seq<Agent>, name: string): Option<Agent> {
    var i := Position(agents, name);
    if i < |agents| then Some(agents[i]) else None
  }

  function Or<T>(stated: Option<T>, below: T): T {
    if stated.Some? then stated.value else below
  }

  function OrElse<T>(stated: Option<T>, below: Option<T>): Option<T> {
    if stated.Some? then stated else below
  }

  /** One tier's word about an agent: what a definition states, and the rules of a tool list above it. */
  datatype Tier = Tier(definition: Definition, tools: seq<Rule>)

  function Applied(agent: Agent, tier: Tier): Agent {
    var said := tier.definition;
    Agent(agent.name, OrElse(said.description, agent.description), Or(said.mode, agent.mode),
          Or(said.hidden, agent.hidden),
          OrElse(said.prompt, agent.prompt), OrElse(said.model, agent.model), agent.rules + said.rules + tier.tools)
  }

  /** One tier's word put over whatever answers to the name, or over a fresh agent when nothing does. */
  function With(agents: seq<Agent>, config: Config, name: string, tier: Tier): seq<Agent> {
    var i := Position(agents, name);
    if i < |agents| then agents[i := Applied(agents[i], tier)] else agents + [Applied(Fresh(name, config), tier)]
  }

  function Without(agents: seq<Agent>, name: string): seq<Agent> {
    if agents == [] then []
    else
      Without(agents[..|agents| - 1], name)
      + if agents[|agents| - 1].name == name then [] else [agents[|agents| - 1]]
  }

  function TierOf(file: File): Tier {
    Tier(file.definition, if file.tools.Some? then RulesFor(file.tools.value) else [])
  }

  function Filed(agents: seq<Agent>, config: Config, files: seq<File>): seq<Agent> {
    if files == [] then agents
    else
      var n := |files| - 1;
      With(Filed(agents, config, files[..n]), config, files[n].name, TierOf(files[n]))
  }

  function Overlaid(agents: seq<Agent>, config: Config, entries: seq<Named>): seq<Agent> {
    if entries == [] then agents
    else
      var n := |entries| - 1;
      var before := Overlaid(agents, config, entries[..n]);
      if entries[n].definition.disable == Some(true) then Without(before, entries[n].name)
      else With(before, config, entries[n].name, Tier(entries[n].definition, []))
  }

  /** Every agent a session may run as, in order. */
  function Assembled(builtins: seq<Agent>, config: Config, files: seq<File>): seq<Agent> {
    Overlaid(Filed(builtins, config, files), config, config.entries)
  }

  // As it runs.

  /** What stops a session from starting on an agent. */
  datatype AgentError = Unknown(name: string) | IsSubagent(name: string) | IsHidden(name: string) | NoneVisible

  datatype Result = Ok(name: string) | Err(error: AgentError)

  class Roster {
    var agents: seq<Agent>

    constructor (builtins: seq<Agent>)
      ensures agents == builtins
    {
      agents := builtins;
    }

    /** The place of the agent that answers to `name`, made for it when none does. */
    method Place(name: string, config: Config) returns (at: nat)
      modifies this
      ensures at == Position(old(agents), name) < |agents|
      ensures agents == if at < |old(agents)| then old(agents) else old(agents) + [Fresh(name, config)]
    {
      at := 0;
      while at < |agents| && agents[at].name != name
        invariant at <= |agents|
        invariant Position(agents, name) == at + Position(agents[at..], name)
      {
        assert agents[at..][1..] == agents[at + 1..];
        at := at + 1;
      }
      assert at < |agents| ==> agents[at..][0].name == name;
      if at == |agents| {
        agents := agents + [Fresh(name, config)];
      }
    }

    /** Each field a definition states replaces the one below it; its rules are appended. */
    method Apply(at: nat, said: Definition)
      requires at < |agents|
      modifies this
      ensures agents == old(agents)[at := Applied(old(agents)[at], Tier(said, []))]
    {
      var agent := agents[at];
      if said.model.Some? {
        agent := agent.(model := said.model);
      }
      if said.prompt.Some? {
        agent := agent.(prompt := said.prompt);
      }
      if said.description.Some? {
        agent := agent.(description := said.description);
      }
      if said.mode.Some? {
        agent := agent.(mode := said.mode.value);
      }
      if said.hidden.Some? {
        agent := agent.(hidden := said.hidden.value);
      }
      agent := agent.(rules := agent.rules + said.rules);
      assert agent.rules == agent.rules + [];
      agents := agents[at := agent];
    }

    method ApplyDefinition(file: File, config: Config)
      modifies this
      ensures agents == With(old(agents), config, file.name, TierOf(file))
    {
      var at := Place(file.name, config);
      ghost var placed := agents;
      Apply(at, file.definition);
      if file.tools.Some? {
        var rules := ToolRules(file.tools.value);
        agents := agents[at := agents[at].(rules := agents[at].rules + rules)];
        Regroup(placed[at].rules, file.definition.rules, rules);
      }
      assert agents[at] == Applied(placed[at], TierOf(file));
    }

    /** The definition files, in the order they were found. */
    method FileTier(files: seq<File>, config: Config)
      modifies this
      ensures agents == Filed(old(agents), config, files)
    {
      for n := 0 to |files|
        invariant agents == Filed(old(agents), config, files[..n])
      {
        assert files[..n + 1][..n] == files[..n];
        ApplyDefinition(files[n], config);
      }
      assert files[..|files|] == files;
    }

    method Remove(name: string)
      modifies this
      ensures agents == Without(old(agents), name)
    {
      var kept := [];
      for n := 0 to |agents|
        invariant agents == old(agents)
        invariant kept == Without(agents[..n], name)
      {
        assert agents[..n + 1][..n] == agents[..n];
        if agents[n].name != name {
          kept := kept + [agents[n]];
        }
      }
      assert agents[..|agents|] == agents;
      agents := kept;
    }

    /** The config's own map: a disabled name goes, any other is stated over what is there. */
    method Overlay(config: Config)
      modifies this
      ensures agents == Overlaid(old(agents), config, config.entries)
    {
      for n := 0 to |config.entries|
        invariant agents == Overlaid(old(agents), config, config.entries[..n])
      {
        assert config.entries[..n + 1][..n] == config.entries[..n];
        OverlayOne(config, config.entries[n]);
      }
      assert config.entries[..|config.entries|] == config.entries;
    }

    /** One entry of the map: the agent goes, or has the entry's fields stated over it. */
    method OverlayOne(config: Config, entry: Named)
      modifies this
      ensures agents == if entry.definition.disable == Some(true) then Without(old(agents), entry.name)
                        else With(old(agents), config, entry.name, Tier(entry.definition, []))
    {
      if entry.definition.disable == Some(true) {
        Remove(entry.name);
        return;
      }
      var at := Place(entry.name, config);
      Apply(at, entry.definition);
    }

    /** The agent a session starts on: the one named, or the first that may be switched to. */
    method ResolveDefault(config: Config) returns (r: Result)
      ensures r == Resolved(agents, OrElse(config.flag, config.chosen))
    {
      var named := if config.flag.Some? then config.flag else config.chosen;
      var at: nat := 0;
      if named.None? {
        while at < |agents| && !agents[at].Selectable()
          invariant at <= |agents|
          invariant FirstSelectable(agents) == at + FirstSelectable(agents[at..])
        {
          assert agents[at..][1..] == agents[at + 1..];
          at := at + 1;
        }
        assert at < |agents| ==> agents[at..][0].Selectable();
        return if at < |agents| then Ok(agents[at].name) else Err(NoneVisible);
      }
      while at < |agents| && agents[at].name != named.value
        invariant at <= |agents|
        invariant Position(agents, named.value) == at + Position(agents[at..], named.value)
      {
        assert agents[at..][1..] == agents[at + 1..];
        at := at + 1;
      }
      assert at < |agents| ==> agents[at..][0].name == named.value;
      if at == |agents| {
        return Err(Unknown(named.value));
      }
      if agents[at].mode == Subagent {
        return Err(IsSubagent(named.value));
      }
      if agents[at].hidden {
        return Err(IsHidden(named.value));
      }
      return Ok(agents[at].name);
    }
  }

  method Build(builtins: seq<Agent>, config: Config, files: seq<File>) returns (roster: Roster, r: Result)
    ensures fresh(roster) && roster.agents == Assembled(builtins, config, files)
    ensures r == Resolved(roster.agents, OrElse(config.flag, config.chosen))
  {
    roster := new Roster(builtins);
    roster.FileTier(files, config);
    roster.Overlay(config);
    r := roster.ResolveDefault(config);
  }

  function FirstSelectable(agents: seq<Agent>): (i: nat)
    ensures i <= |agents|
    ensures i < |agents| ==> agents[i].Selectable()
    ensures forall j :: 0 <= j < i ==> !agents[j].Selectable()
  {
    FirstWhere(agents, (agent: Agent) => agent.Selectable())
  }

  function Resolved(agents: seq<Agent>, named: Option<string>): Result {
    if named.None? then
      var i := FirstSelectable(agents);
      if i < |agents| then Ok(agents[i].name) else Err(NoneVisible)
    else match Lookup(agents, named.value)
      case None => Err(Unknown(named.value))
      case Some(agent) =>
        if agent.mode == Subagent then Err(IsSubagent(named.value))
        else if agent.hidden then Err(IsHidden(named.value))
        else Ok(agent.name)
  }

  /**
   * A session starts exactly when there is an agent it may start on: the named one if one is named. What
   * it starts on exists, may be switched to, and is the named one or the first that may be.
   */
  lemma DefaultIsSelectable(agents: seq<Agent>, named: Option<string>)
    requires DistinctNames(agents)
    ensures var r := Resolved(agents, named);
            && (r.Ok? ==> Lookup(agents, r.name).Some? && Lookup(agents, r.name).value.Selectable())
            && (r.Ok? && named.Some? ==> r.name == named.value)
            && (named.None? ==> (r.Ok? <==> exists i :: 0 <= i < |agents| && agents[i].Selectable()))
            && (named.Some? ==>
                (r.Ok? <==> Lookup(agents, named.value).Some? && Lookup(agents, named.value).value.Selectable()))
            && (r == Err(NoneVisible) ==> named.None?)
  {
    if named.None? {
      var i := FirstSelectable(agents);
      if i < |agents| {
        assert Position(agents, agents[i].name) == i;
      }
    }
  }

  // Name by name.

  /** The tiers' words about one name, in the order they are applied. */
  function Files(files: seq<File>, name: string): seq<Tier> {
    if files == [] then []
    else
      var n := |files| - 1;
      Files(files[..n], name) + if files[n].name == name then [TierOf(files[n])] else []
  }

  function Stated(entries: seq<Named>, name: string): Option<Definition> {
    if entries == [] then None
    else if entries[|entries| - 1].name == name then Some(entries[|entries| - 1].definition)
    else Stated(entries[..|entries| - 1], name)
  }

  function Tiers(config: Config, files: seq<File>, name: string): seq<Tier> {
    var stated := Stated(config.entries, name);
    Files(files, name) + if stated.Some? then [Tier(stated.value, [])] else []
  }

  predicate Disabled(config: Config, name: string) {
    Stated(config.entries, name).Some? && Stated(config.entries, name).value.disable == Some(true)
  }

  /** The last word among `said`, or `below` when none says anything. */
  function LastSaid<T>(below: T, said: seq<Option<T>>): T {
    if said == [] then below
    else if said[|said| - 1].Some? then said[|said| - 1].value
    else LastSaid(below, said[..|said| - 1])
  }

  function LastOf<T>(below: Option<T>, said: seq<Option<T>>): Option<T> {
    if said == [] then below
    else if said[|said| - 1].Some? then said[|said| - 1]
    else LastOf(below, said[..|said| - 1])
  }

  // Each field a definition may state, as a function to look for it with.

  function DescriptionIn(said: Definition): Option<string> {
    said.description
  }

  function ModeIn(said: Definition): Option<Mode> {
    said.mode
  }

  function HiddenIn(said: Definition): Option<bool> {
    said.hidden
  }

  function PromptIn(said: Definition): Option<string> {
    said.prompt
  }

  function ModelIn(said: Definition): Option<string> {
    said.model
  }

  function Each<T>(tiers: seq<Tier>, f: Definition -> Option<T>): (said: seq<Option<T>>)
    ensures |said| == |tiers|
  {
    seq(|tiers|, i requires 0 <= i < |tiers| => f(tiers[i].definition))
  }

  function AllRules(tiers: seq<Tier>): seq<Rule> {
    if tiers == [] then []
    else
      var last := tiers[|tiers| - 1];
      AllRules(tiers[..|tiers| - 1]) + (last.definition.rules + last.tools)
  }

  /**
   * What an agent is, said once for the whole stack of tiers: each field the last tier's that states it, the
   * rules all of theirs in order.
   */
  function Stack(base: Agent, tiers: seq<Tier>): Agent {
    Agent(base.name,
          LastOf(base.description, Each(tiers, DescriptionIn)),
          LastSaid(base.mode, Each(tiers, ModeIn)),
          LastSaid(base.hidden, Each(tiers, HiddenIn)),
          LastOf(base.prompt, Each(tiers, PromptIn)),
          LastOf(base.model, Each(tiers, ModelIn)),
          base.rules + AllRules(tiers))
  }

  /** The agent of a name: nothing if the config disables it, or if nothing ships it and no tier speaks of it. */
  function AgentNamed(builtins: seq<Agent>, config: Config, files: seq<File>, name: string): Option<Agent> {
    var shipped, tiers := Lookup(builtins, name), Tiers(config, files, name);
    if Disabled(config, name) || (shipped.None? && tiers == []) then None
    else Some(Stack(Or(shipped, Fresh(name, config)), tiers))
  }

  lemma StackGrows(base: Agent, tiers: seq<Tier>, tier: Tier)
    ensures Stack(base, tiers + [tier]) == Applied(Stack(base, tiers), tier)
  {
    var more := tiers + [tier];
    assert more[..|more| - 1] == tiers;
    EachGrows(tiers, tier, DescriptionIn);
    EachGrows(tiers, tier, ModeIn);
    EachGrows(tiers, tier, HiddenIn);
    EachGrows(tiers, tier, PromptIn);
    EachGrows(tiers, tier, ModelIn);
    assert base.rules + AllRules(more) == base.rules + AllRules(tiers) + tier.definition.rules + tier.tools;
  }

  lemma EachGrows<T>(tiers: seq<Tier>, tier: Tier, f: Definition -> Option<T>)
    ensures Each(tiers + [tier], f)[..|tiers|] == Each(tiers, f)
            && Each(tiers + [tier], f)[|tiers|] == f(tier.definition)
  {}

  lemma StackOfNone(base: Agent)
    ensures Stack(base, []) == base
  {
    assert base.rules + [] == base.rules;
  }

  lemma WithFinds(agents: seq<Agent>, config: Config, name: string, tier: Tier, other: string)
    requires DistinctNames(agents)
    ensures DistinctNames(With(agents, config, name, tier))
    ensures Lookup(With(agents, config, name, tier), other)
            == if other == name then Some(Applied(Or(Lookup(agents, name), Fresh(name, config)), tier))
               else Lookup(agents, other)
  {
    var after := With(agents, config, name, tier);
    var i, j, k := Position(agents, name), Position(agents, other), Position(after, other);
    assert forall m :: 0 <= m < |agents| ==> after[m].name == agents[m].name;
    if i == |agents| {
      assert after[i].name == name;
    }
    if j < |agents| {
      assert after[j].name == other && k == j;
    } else if other == name {
      assert k == |agents|;
    } else {
      assert k == |after|;
    }
  }

  lemma {:induction false} WithoutDistinct(agents: seq<Agent>, name: string)
    requires DistinctNames(agents)
    ensures DistinctNames(Without(agents, name)) && forall agent <- Without(agents, name) :: agent in agents
  {
    if agents != [] {
      var n := |agents| - 1;
      var kept := Without(agents[..n], name);
      WithoutDistinct(agents[..n], name);
      forall i | 0 <= i < |kept| ensures kept[i].name != agents[n].name && kept[i] in agents {
        assert kept[i] in agents[..n];
      }
      DistinctMore(kept, agents[n]);
      assert kept + [] == kept;
    }
  }

  lemma DistinctMore(agents: seq<Agent>, agent: Agent)
    requires DistinctNames(agents) && forall i :: 0 <= i < |agents| ==> agents[i].name != agent.name
    ensures DistinctNames(agents + [agent])
  {}

  lemma {:induction false} WithoutLookup(agents: seq<Agent>, name: string, other: string)
    ensures Lookup(Without(agents, name), other) == if other == name then None else Lookup(agents, other)
  {
    if agents != [] {
      var n := |agents| - 1;
      var kept := Without(agents[..n], name);
      WithoutLookup(agents[..n], name, other);
      assert agents == agents[..n] + [agents[n]];
      LookupAppend(agents[..n], agents[n], other);
      LookupAppend(kept, agents[n], other);
      assert kept + [] == kept;
    }
  }

  lemma WithoutFinds(agents: seq<Agent>, name: string, other: string)
    requires DistinctNames(agents)
    ensures DistinctNames(Without(agents, name)) && forall agent <- Without(agents, name) :: agent in agents
    ensures Lookup(Without(agents, name), other) == if other == name then None else Lookup(agents, other)
  {
    WithoutDistinct(agents, name);
    WithoutLookup(agents, name, other);
  }

  lemma LookupAppend(agents: seq<Agent>, agent: Agent, name: string)
    ensures Lookup(agents + [agent], name)
            == if Lookup(agents, name).Some? then Lookup(agents, name)
               else if agent.name == name then Some(agent) else None
  {
    var all := agents + [agent];
    var i, j := Position(agents, name), Position(all, name);
    assert forall m :: 0 <= m < |agents| ==> all[m] == agents[m];
    assert all[|agents|] == agent;
    if i < |agents| {
      assert j == i;
    } else if agent.name == name {
      assert j == |agents|;
    } else {
      assert j == |all|;
    }
  }

  lemma {:induction false} FiledByName(builtins: seq<Agent>, config: Config, files: seq<File>, name: string)
    requires DistinctNames(builtins)
    ensures DistinctNames(Filed(builtins, config, files))
    ensures Lookup(Filed(builtins, config, files), name)
            == if Lookup(builtins, name).None? && Files(files, name) == [] then None
               else Some(Stack(Or(Lookup(builtins, name), Fresh(name, config)), Files(files, name)))
  {
    var base := Or(Lookup(builtins, name), Fresh(name, config));
    StackOfNone(base);
    if files != [] {
      var n := |files| - 1;
      FiledByName(builtins, config, files[..n], name);
      var tiers := Files(files[..n], name);
      WithFinds(Filed(builtins, config, files[..n]), config, files[n].name, TierOf(files[n]), name);
      if files[n].name == name {
        assert Files(files, name) == tiers + [TierOf(files[n])];
        StackGrows(base, tiers, TierOf(files[n]));
      } else {
        assert Files(files, name) == tiers;
      }
    }
  }

  lemma {:induction false} OverlaidByName(agents: seq<Agent>, config: Config, entries: seq<Named>, name: string)
    requires DistinctNames(agents) && DistinctEntries(entries)
    ensures DistinctNames(Overlaid(agents, config, entries))
    ensures Lookup(Overlaid(agents, config, entries), name)
            == match Stated(entries, name)
               case None => Lookup(agents, name)
               case Some(said) =>
                 if said.disable == Some(true) then None
                 else Some(Applied(Or(Lookup(agents, name), Fresh(name, config)), Tier(said, [])))
  {
    if entries != [] {
      var n := |entries| - 1;
      OverlaidByName(agents, config, entries[..n], name);
      var before := Overlaid(agents, config, entries[..n]);
      WithoutFinds(before, entries[n].name, name);
      WithFinds(before, config, entries[n].name, Tier(entries[n].definition, []), name);
      if entries[n].name == name {
        NotStated(entries, n, name);
      }
    }
  }

  lemma {:induction false} NotStated(entries: seq<Named>, n: nat, name: string)
    requires n <= |entries| && forall i :: 0 <= i < n ==> entries[i].name != name
    ensures Stated(entries[..n], name).None?
  {
    if n > 0 {
      NotStated(entries, n - 1, name);
      assert entries[..n][..n - 1] == entries[..n - 1];
    }
  }

  /**
   * The registry, name by name: names stay distinct, and whatever answers to a name is what its tiers
   * say, lowest first, over what ships; a disabled name answers nothing.
   */
  lemma RegistryIsPerName(builtins: seq<Agent>, config: Config, files: seq<File>, name: string)
    requires DistinctNames(builtins) && DistinctEntries(config.entries)
    ensures DistinctNames(Assembled(builtins, config, files))
    ensures Lookup(Assembled(builtins, config, files), name) == AgentNamed(builtins, config, files, name)
  {
    var filed := Filed(builtins, config, files);
    FiledByName(builtins, config, files, name);
    OverlaidByName(filed, config, config.entries, name);
    var base := Or(Lookup(builtins, name), Fresh(name, config));
    var stated := Stated(config.entries, name);
    StackOfNone(base);
    if stated.Some? {
      StackGrows(base, Files(files, name), Tier(stated.value, []));
    } else {
      assert Tiers(config, files, name) == Files(files, name);
    }
  }

  /** What the rules of a stack of tiers decide: the highest tier with an answer has the last word. */
  function LastAnswer(base: seq<Rule>, tiers: seq<Tier>, permission: string, pattern: string): Option<Action> {
    if tiers == [] then Decide(base, permission, pattern)
    else
      var last := tiers[|tiers| - 1];
      OrElse(Decide(last.definition.rules + last.tools, permission, pattern),
             LastAnswer(base, tiers[..|tiers| - 1], permission, pattern))
  }

  lemma TopOfTheStack(base: Agent, tiers: seq<Tier>)
    requires tiers != []
    ensures var n := |tiers| - 1;
            Stack(base, tiers).rules == Stack(base, tiers[..n]).rules + (tiers[n].definition.rules + tiers[n].tools)
  {}

  lemma {:induction false} HighestTierDecides(base: Agent, tiers: seq<Tier>, permission: string, pattern: string)
    ensures Decide(Stack(base, tiers).rules, permission, pattern) == LastAnswer(base.rules, tiers, permission, pattern)
  {
    if tiers == [] {
      StackOfNone(base);
    } else {
      var n := |tiers| - 1;
      var own := tiers[n].definition.rules + tiers[n].tools;
      HighestTierDecides(base, tiers[..n], permission, pattern);
      TopOfTheStack(base, tiers);
      DecideAppend(Stack(base, tiers[..n]).rules, own, permission, pattern);
    }
  }

  /**
   * A definition file that is the last of its name decides by its list for its agent, unless the config speaks
   * of it.
   */
  lemma ListedInAFile(builtins: seq<Agent>, config: Config, files: seq<File>, n: nat, listed: seq<string>, tool: string,
                      pattern: string)
    requires DistinctNames(builtins) && DistinctEntries(config.entries)
    requires n < |files| && files[n].tools == Some(listed) && Plain(tool)
    requires forall m :: n < m < |files| ==> files[m].name != files[n].name
    requires Stated(config.entries, files[n].name).None? && Says(listed, tool).Some?
    ensures var agent := Lookup(Assembled(builtins, config, files), files[n].name);
            agent.Some? && Decide(agent.value.rules, tool, pattern) == Says(listed, tool)
  {
    var name := files[n].name;
    RegistryIsPerName(builtins, config, files, name);
    var tiers := Tiers(config, files, name);
    var base := Or(Lookup(builtins, name), Fresh(name, config));
    LastOfItsName(files, n, |files|);
    assert files[..|files|] == files;
    assert tiers == Files(files[..n], name) + [TierOf(files[n])];
    HighestTierDecides(base, tiers, tool, pattern);
    ListDecides(files[n].definition.rules, listed, tool, pattern);
  }

  lemma {:induction false} LastOfItsName(files: seq<File>, n: nat, m: nat)
    requires n < m <= |files| && forall i :: n < i < m ==> files[i].name != files[n].name
    ensures Files(files[..m], files[n].name) == Files(files[..n], files[n].name) + [TierOf(files[n])]
    decreases m
  {
    assert files[..m][..m - 1] == files[..m - 1] && files[..m][m - 1] == files[m - 1];
    if m - 1 > n {
      LastOfItsName(files, n, m - 1);
    }
  }

  // Order, and where a session starts.

  lemma WithKeepsOrder(agents: seq<Agent>, config: Config, name: string, tier: Tier, a: string, b: string)
    requires Position(agents, a) < Position(agents, b)
    ensures Position(With(agents, config, name, tier), a) < Position(With(agents, config, name, tier), b)
  {
    var after := With(agents, config, name, tier);
    assert forall m :: 0 <= m < |agents| ==> after[m].name == agents[m].name;
    var i, j, k := Position(agents, a), Position(agents, b), Position(after, b);
    assert after[i].name == a && Position(after, a) <= i;
    assert forall m :: 0 <= m < j ==> after[m].name != b;
  }

  lemma {:induction false} WithoutKeepsOrder(agents: seq<Agent>, name: string, a: string, b: string)
    requires a != name && Position(agents, a) < Position(agents, b)
    ensures Position(Without(agents, name), a) < Position(Without(agents, name), b)
  {
    var n := |agents| - 1;
    var before, last := agents[..n], agents[n];
    var kept := Without(before, name);
    assert agents == before + [last];
    PositionAppend(before, last, a);
    PositionAppend(before, last, b);
    PositionAppend(kept, last, a);
    PositionAppend(kept, last, b);
    assert kept + [] == kept;
    if Position(before, a) < |before| {
      WithoutKeepsOrder(before, name, a, b);
    } else {
      NotKept(before, name, a);
      NotKept(before, name, b);
    }
  }

  lemma PositionAppend(agents: seq<Agent>, last: Agent, name: string)
    ensures Position(agents + [last], name)
            == if Position(agents, name) < |agents| then Position(agents, name)
               else if last.name == name then |agents| else |agents| + 1
  {
    LookupAppend(agents, last, name);
    var all := agents + [last];
    assert forall m :: 0 <= m < |agents| ==> all[m] == agents[m];
    assert all[|agents|] == last;
  }

  lemma {:induction false} NotKept(agents: seq<Agent>, name: string, a: string)
    requires Position(agents, a) == |agents|
    ensures Position(Without(agents, name), a) == |Without(agents, name)|
  {
    if agents != [] {
      var n := |agents| - 1;
      assert agents == agents[..n] + [agents[n]];
      PositionAppend(agents[..n], agents[n], a);
      NotKept(agents[..n], name, a);
      PositionAppend(Without(agents[..n], name), agents[n], a);
    }
  }

  lemma {:induction false} FiledKeepsOrder(agents: seq<Agent>, config: Config, files: seq<File>, a: string, b: string)
    requires Position(agents, a) < Position(agents, b)
    ensures Position(Filed(agents, config, files), a) < Position(Filed(agents, config, files), b)
  {
    if files != [] {
      var n := |files| - 1;
      FiledKeepsOrder(agents, config, files[..n], a, b);
      WithKeepsOrder(Filed(agents, config, files[..n]), config, files[n].name, TierOf(files[n]), a, b);
    }
  }

  lemma {:induction false} OverlaidKeepsOrder(agents: seq<Agent>, config: Config, entries: seq<Named>, a: string,
                                              b: string)
    requires Position(agents, a) < Position(agents, b)
    requires forall i :: 0 <= i < |entries| && entries[i].name == a ==> entries[i].definition.disable != Some(true)
    ensures Position(Overlaid(agents, config, entries), a) < Position(Overlaid(agents, config, entries), b)
  {
    if entries != [] {
      var n := |entries| - 1;
      var before := Overlaid(agents, config, entries[..n]);
      OverlaidKeepsOrder(agents, config, entries[..n], a, b);
      if entries[n].definition.disable == Some(true) {
        WithoutKeepsOrder(before, entries[n].name, a, b);
      } else {
        WithKeepsOrder(before, config, entries[n].name, Tier(entries[n].definition, []), a, b);
      }
    }
  }

  lemma {:induction false} StatedByName(entries: seq<Named>, i: nat)
    requires DistinctEntries(entries) && i < |entries|
    ensures Stated(entries, entries[i].name) == Some(entries[i].definition)
  {
    var n := |entries| - 1;
    if i < n {
      StatedByName(entries[..n], i);
    }
  }

  /** An agent that ships keeps its place ahead of all that came after it, unless the config disables it. */
  lemma RegistryKeepsOrder(builtins: seq<Agent>, config: Config, files: seq<File>, a: string, b: string)
    requires DistinctEntries(config.entries) && !Disabled(config, a)
    requires Position(builtins, a) < Position(builtins, b)
    ensures Position(Assembled(builtins, config, files), a) < Position(Assembled(builtins, config, files), b)
  {
    FiledKeepsOrder(builtins, config, files, a, b);
    forall i | 0 <= i < |config.entries| && config.entries[i].name == a
      ensures config.entries[i].definition.disable != Some(true)
    {
      StatedByName(config.entries, i);
    }
    OverlaidKeepsOrder(Filed(builtins, config, files), config, config.entries, a, b);
  }

  /** The words a shipped agent comes with: its line in a picker and its prompt. */
  datatype Words = Words(description: string, prompt: Option<string>)

  function Shipped(name: string, mode: Mode, words: string -> Words, rules: seq<Rule>): Agent {
    Agent(name, Some(words(name).description), mode, false, words(name).prompt, None, rules)
  }

  const BUILD := "build"

  const ROLES := ["analyst", "executor", "verifier", "critic", "debugger", "reviewer"]

  /** The ten agents that ship. `door` is what lets an attended agent keep its memory. */
  function Builtins(config: Config, door: seq<Rule>, words: string -> Words): seq<Agent> {
    var attended := Defaults() + door;
    [Shipped(BUILD, Primary, words, attended + [Rule("plan_enter", ANY, Allow)] + config.permission),
     Shipped("plan", Primary, words,
             attended
               + [Rule("task", "general", Deny), Rule("edit", ANY, Deny), Rule("write", ANY, Deny),
                  Rule("plan_exit", ANY, Allow)]
             + config.permission),
     Shipped("general", Subagent, words, Defaults() + [Rule("todowrite", ANY, Deny)] + config.permission),
     Shipped("explore", Subagent, words,
             Defaults()
             + [Rule(ANY, ANY, Deny), Rule("grep", ANY, Allow), Rule("glob", ANY, Allow), Rule("read", ANY, Allow),
                Rule("webfetch", ANY, Allow), Rule("websearch", ANY, Allow), Rule("bash", ANY, Ask),
                Rule(EXTERNAL_DIRECTORY, ANY, Ask)]
             + config.permission)]
    + seq(|ROLES|, i requires 0 <= i < |ROLES| => Shipped(ROLES[i], Subagent, words, Defaults() + config.permission))
  }

  lemma BuiltinNames(config: Config, door: seq<Rule>, words: string -> Words)
    ensures DistinctNames(Builtins(config, door, words)) && |Builtins(config, door, words)| == 10
    ensures Builtins(config, door, words)[0].name == BUILD && Builtins(config, door, words)[0].Selectable()
  {
    var agents := Builtins(config, door, words);
    var names :=
      [BUILD, "plan", "general", "explore", "analyst", "executor", "verifier", "critic", "debugger", "reviewer"];
    assert forall i :: 0 <= i < 10 ==> agents[i].name == names[i];
    assert names[0][0] == 'b' && names[1][0] == 'p' && names[2][0] == 'g' && names[3][0] == 'e' && |names[3]| == 7;
    assert names[4][0] == 'a' && names[5][0] == 'e' && |names[5]| == 8 && names[6][0] == 'v' && names[7][0] == 'c';
    assert names[8][0] == 'd' && names[9][0] == 'r';
  }

  /** With nothing named and no tier speaking of it, a session starts on `build`, whatever else is defined. */
  lemma StartsOnBuild(config: Config, door: seq<Rule>, words: string -> Words, files: seq<File>)
    requires DistinctEntries(config.entries) && Tiers(config, files, BUILD) == []
    ensures Resolved(Assembled(Builtins(config, door, words), config, files), None) == Ok(BUILD)
  {
    var builtins := Builtins(config, door, words);
    var agents := Assembled(builtins, config, files);
    BuiltinNames(config, door, words);
    RegistryIsPerName(builtins, config, files, BUILD);
    assert Position(builtins, BUILD) == 0;
    StackOfNone(builtins[0]);
    assert Lookup(agents, BUILD) == Some(builtins[0]);
    var at := Position(agents, BUILD);
    assert Position(agents, agents[0].name) == 0;
    if agents[0].name != BUILD {
      RegistryKeepsOrder(builtins, config, files, BUILD, agents[0].name);
    }
    assert at == 0;
    assert FirstSelectable(agents) == 0;
  }
}
