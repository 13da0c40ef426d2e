/** A `tools:` list as permission rules, and the decision table those rules come to. */
module ToolLists {
  import opened Optional
  import opened Permissions

  const CONVERSATION_TOOLS := ["question", "plan_exit", "plan_enter"]

  /** The tools that do work to the project. */
  const WORKING_TOOLS := [
    "read", "edit", "write", "glob", "grep", "bash", "bash_output", "kill_shell", "todowrite", "webfetch",
    "websearch", "evaluate", "skill", "task"]

  /** Every tool this build registers. */
  const TOOL_NAMES := WORKING_TOOLS + CONVERSATION_TOOLS

  const MCP_PREFIX := "mcp__"
  const EXTERNAL_DIRECTORY := "external_directory"

  /** The registered names a list leaves out, conversation tools aside. */
  function Unlisted(names: seq<string>, listed: seq<string>): seq<string> {
    if names == [] then []
    else
      var last := names[|names| - 1];
      Unlisted(names[..|names| - 1], listed) + if last in CONVERSATION_TOOLS || last in listed then [] else [last]
  }

  /** The names a list opens. */
  function Openable(listed: seq<string>): seq<string> {
    if listed == [] then []
    else
      var last := listed[|listed| - 1];
      Openable(listed[..|listed| - 1]) + if last in CONVERSATION_TOOLS then [] else [last]
  }

  /** One rule a name, all with one action. */
  function Naming(names: seq<string>, action: Action): (rules: seq<Rule>)
    ensures |rules| == |names|
  {
    seq(|names|, i requires 0 <= i < |names| => Rule(names[i], ANY, action))
  }

  const MCP_RULE := Rule(MCP_PREFIX + ANY, ANY, Deny)

  /** What a list comes to: the others denied by name, the MCP namespace denied, and the listed allowed last. */
  function RulesFor(listed: seq<string>): seq<Rule> {
    Naming(Unlisted(TOOL_NAMES, listed), Deny) + [MCP_RULE] + Naming(Openable(listed), Allow)
  }

  method ToolRules(listed: seq<string>) returns (rules: seq<Rule>)
    ensures rules == RulesFor(listed)
  {
    rules := [];
    for n := 0 to |TOOL_NAMES|
      invariant rules == Naming(Unlisted(TOOL_NAMES[..n], listed), Deny)
    {
      assert TOOL_NAMES[..n + 1][..n] == TOOL_NAMES[..n];
      var name := TOOL_NAMES[n];
      if name in CONVERSATION_TOOLS || name in listed {
        continue;
      }
      rules := rules + [Rule(name, ANY, Deny)];
    }
    assert TOOL_NAMES[..|TOOL_NAMES|] == TOOL_NAMES;
    rules := rules + [MCP_RULE];
    ghost var denied := rules;
    for n := 0 to |listed|
      invariant rules == denied + Naming(Openable(listed[..n]), Allow)
    {
      assert listed[..n + 1][..n] == listed[..n];
      if listed[n] in CONVERSATION_TOOLS {
        continue;
      }
      rules := rules + [Rule(listed[n], ANY, Allow)];
    }
    assert listed[..|listed|] == listed;
  }

  lemma {:induction false} UnlistedAre(names: seq<string>, listed: seq<string>)
    ensures forall name :: name in Unlisted(names, listed)
              <==> name in names && name !in CONVERSATION_TOOLS && name !in listed
  {
    if names != [] {
      UnlistedAre(names[..|names| - 1], listed);
      assert names == names[..|names| - 1] + [names[|names| - 1]];
    }
  }

  lemma {:induction false} OpenableAre(listed: seq<string>)
    ensures forall name :: name in Openable(listed) <==> name in listed && name !in CONVERSATION_TOOLS
  {
    if listed != [] {
      OpenableAre(listed[..|listed| - 1]);
      assert listed == listed[..|listed| - 1] + [listed[|listed| - 1]];
    }
  }

  predicate AllPlain(names: seq<string>) {
    forall i :: 0 <= i < |names| ==> Plain(names[i])
  }

  /** Some name of them covers the tool. */
  predicate AnyCovers(names: seq<string>, tool: string) {
    exists name <- names :: Matches(tool, name)
  }

  /** Rules that each name one pattern decide for what some pattern of them covers. */
  lemma NamingDecides(names: seq<string>, action: Action, tool: string, pattern: string)
    ensures Decide(Naming(names, action), tool, pattern) == if AnyCovers(names, tool) then Some(action) else None
  {
    var rules := Naming(names, action);
    AnyMatches(pattern);
    assert forall i :: 0 <= i < |rules| ==> (Answers(rules[i], tool, pattern) <==> Matches(tool, names[i]));
    DecideNone(rules, tool, pattern);
    if AnyCovers(names, tool) {
      var name :| name in names && Matches(tool, name);
      var i :| 0 <= i < |names| && names[i] == name;
      assert Answers(rules[i], tool, pattern);
      DecideAll(rules, tool, pattern, action);
    }
  }

  /** Of literal names, those cover a tool that name it. */
  lemma LiteralsCover(names: seq<string>, tool: string)
    requires AllPlain(names) && Plain(tool)
    ensures AnyCovers(names, tool) <==> tool in names
  {
    forall name | name in names ensures Matches(tool, name) <==> name == tool {
      var i :| 0 <= i < |names| && names[i] == name;
      LiteralMatches(tool, name);
    }
  }

  predicate NameCharacters(text: string) {
    forall i :: 0 <= i < |text| ==> 'a' <= text[i] <= 'z' || text[i] == '_'
  }

  lemma NamesArePlain(text: string)
    requires NameCharacters(text)
    ensures Plain(text)
  {
    assert Normalize(text) == text;
  }

  lemma RegisteredArePlain()
    ensures AllPlain(TOOL_NAMES) && Plain(EXTERNAL_DIRECTORY) && Plain(MCP_PREFIX)
  {
    forall i | 0 <= i < |TOOL_NAMES| ensures Plain(TOOL_NAMES[i]) {
      assert NameCharacters(TOOL_NAMES[i]);
      NamesArePlain(TOOL_NAMES[i]);
    }
    NamesArePlain(EXTERNAL_DIRECTORY);
    NamesArePlain(MCP_PREFIX);
  }

  lemma McpDecides(tool: string, pattern: string)
    requires Plain(tool)
    ensures Decide([MCP_RULE], tool, pattern) == if MCP_PREFIX <= tool then Some(Deny) else None
  {
    RegisteredArePlain();
    PrefixMatches(tool, MCP_PREFIX);
    AnyMatches(pattern);
    assert [MCP_RULE][..0] == [];
  }

  lemma NotMcp(tool: string)
    requires tool in TOOL_NAMES || tool == EXTERNAL_DIRECTORY
    ensures !(MCP_PREFIX <= tool)
  {
    assert MCP_PREFIX[0] == 'm';
    assert EXTERNAL_DIRECTORY[0] == 'e';
    assert forall i :: 0 <= i < |TOOL_NAMES| ==> |TOOL_NAMES[i]| > 0 && TOOL_NAMES[i][0] != 'm';
  }

  /**
   * What a list says of a tool: what a name it opens covers is allowed, and of the rest what is registered, or
   * MCP's, denied.
   */
  function Says(listed: seq<string>, tool: string): Option<Action> {
    if AnyCovers(Openable(listed), tool) then Some(Allow)
    else if (tool in TOOL_NAMES && tool !in CONVERSATION_TOOLS) || MCP_PREFIX <= tool then Some(Deny)
    else None
  }

  lemma DeniedByName(listed: seq<string>, tool: string)
    requires Plain(tool) && !AnyCovers(Openable(listed), tool)
    ensures AnyCovers(Unlisted(TOOL_NAMES, listed), tool) <==> tool in TOOL_NAMES && tool !in CONVERSATION_TOOLS
  {
    var denied := Unlisted(TOOL_NAMES, listed);
    UnlistedAre(TOOL_NAMES, listed);
    OpenableAre(listed);
    RegisteredArePlain();
    forall i | 0 <= i < |denied| ensures Plain(denied[i]) {
      assert denied[i] in TOOL_NAMES;
    }
    LiteralsCover(denied, tool);
    LiteralMatches(tool, tool);
  }

  /**
   * The decision table of any list over any rules beneath it: a tool that some name the list opens covers is
   * allowed, any other registered or MCP tool is denied, and for every other name, the conversation tools
   * among them, whatever was beneath decides as it did.
   */
  lemma ListDecides(below: seq<Rule>, listed: seq<string>, tool: string, pattern: string)
    requires Plain(tool)
    ensures Decide(below + RulesFor(listed), tool, pattern)
            == if Says(listed, tool).Some? then Says(listed, tool) else Decide(below, tool, pattern)
  {
    var denied, allowed := Unlisted(TOOL_NAMES, listed), Openable(listed);
    NamingDecides(denied, Deny, tool, pattern);
    NamingDecides(allowed, Allow, tool, pattern);
    McpDecides(tool, pattern);
    if !AnyCovers(allowed, tool) {
      DeniedByName(listed, tool);
    }
    DecideAppend(Naming(denied, Deny), [MCP_RULE], tool, pattern);
    DecideAppend(Naming(denied, Deny) + [MCP_RULE], Naming(allowed, Allow), tool, pattern);
    DecideAppend(below, RulesFor(listed), tool, pattern);
  }

  /** Of literal names the list allows those it holds, conversation tools aside. */
  lemma LiteralListSays(listed: seq<string>, tool: string)
    requires AllPlain(listed) && Plain(tool)
    ensures Says(listed, tool) == Some(Allow) <==> tool in listed && tool !in CONVERSATION_TOOLS
  {
    var allowed := Openable(listed);
    OpenableAre(listed);
    forall i | 0 <= i < |allowed| ensures Plain(allowed[i]) {
      assert allowed[i] in listed;
    }
    LiteralsCover(allowed, tool);
  }

  /** What a list promises to leave alone: the gate on outside directories and the conversation tools. */
  predicate LeftAlone(tool: string) {
    tool == EXTERNAL_DIRECTORY || tool in CONVERSATION_TOOLS
  }

  lemma LeftAloneIsPlain(tool: string)
    requires LeftAlone(tool)
    ensures Plain(tool) && !(tool in TOOL_NAMES && tool !in CONVERSATION_TOOLS) && !(MCP_PREFIX <= tool)
  {
    RegisteredArePlain();
    assert tool in CONVERSATION_TOOLS ==> tool in TOOL_NAMES;
    NotMcp(tool);
    assert |EXTERNAL_DIRECTORY| == 18 && forall i :: 0 <= i < |TOOL_NAMES| ==> |TOOL_NAMES[i]| < 18;
  }

  /** The gate, and each conversation tool, is decided as before exactly when no name the list opens covers it. */
  lemma LeftAloneExactly(listed: seq<string>, tool: string, pattern: string)
    requires LeftAlone(tool)
    ensures (forall below :: Decide(below + RulesFor(listed), tool, pattern) == Decide(below, tool, pattern))
            <==> forall name <- Openable(listed) :: !Matches(tool, name)
  {
    LeftAloneIsPlain(tool);
    forall below: seq<Rule>
      ensures Decide(below + RulesFor(listed), tool, pattern)
              == if AnyCovers(Openable(listed), tool) then Some(Allow) else Decide(below, tool, pattern)
    {
      ListDecides(below, listed, tool, pattern);
    }
    var none: seq<Rule> := [];
    assert Decide(none, tool, pattern) == None;
    ListDecides(none, listed, tool, pattern);
  }

  lemma OpenedByName(below: seq<Rule>, name: string, tool: string, pattern: string)
    requires Plain(tool) && name !in CONVERSATION_TOOLS && Matches(tool, name)
    ensures Decide(below + RulesFor([name]), tool, pattern) == Some(Allow)
  {
    OpenableAre([name]);
    assert name in [name];
    ListDecides(below, [name], tool, pattern);
  }

  lemma NoConversation()
    ensures EXTERNAL_DIRECTORY !in CONVERSATION_TOOLS && ANY !in CONVERSATION_TOOLS
  {
    assert |EXTERNAL_DIRECTORY| == 18 && |ANY| == 1;
    assert |CONVERSATION_TOOLS[0]| == 8 && |CONVERSATION_TOOLS[1]| == 9 && |CONVERSATION_TOOLS[2]| == 10;
  }

  /** A `*` opens all of them, over any rules; and naming the gate opens the gate. */
  lemma LeftAloneCanBeOpened(below: seq<Rule>, tool: string, pattern: string)
    requires LeftAlone(tool)
    ensures Decide(below + RulesFor([ANY]), tool, pattern) == Some(Allow)
    ensures Decide(below + RulesFor([EXTERNAL_DIRECTORY]), EXTERNAL_DIRECTORY, pattern) == Some(Allow)
  {
    NoConversation();
    LeftAloneIsPlain(tool);
    LeftAloneIsPlain(EXTERNAL_DIRECTORY);
    AnyMatches(tool);
    LiteralMatches(EXTERNAL_DIRECTORY, EXTERNAL_DIRECTORY);
    OpenedByName(below, ANY, tool, pattern);
    OpenedByName(below, EXTERNAL_DIRECTORY, EXTERNAL_DIRECTORY, pattern);
  }

  /** The same table, name by name. */
  lemma ListTable(below: seq<Rule>, listed: seq<string>, tool: string, pattern: string)
    requires Plain(tool)
    ensures Decide(below + RulesFor(listed), tool, pattern)
            == if exists name <- listed :: name !in ["question", "plan_exit", "plan_enter"] && Matches(tool, name)
               then Some(Allow)
               else if tool in ["read", "edit", "write", "glob", "grep", "bash", "bash_output", "kill_shell",
                                "todowrite", "webfetch", "websearch", "evaluate", "skill", "task"]
                       || "mcp__" <= tool
               then Some(Deny)
               else Decide(below, tool, pattern)
  {
    ListDecides(below, listed, tool, pattern);
    OpenableAre(listed);
    assert forall name <- Openable(listed) :: name in listed && name !in CONVERSATION_TOOLS;
    WorkingApart();
  }

  lemma WorkingApart()
    ensures forall tool :: tool in TOOL_NAMES && tool !in CONVERSATION_TOOLS <==> tool in WORKING_TOOLS
  {
    var names := WORKING_TOOLS;
    assert |CONVERSATION_TOOLS[0]| == 8 && |CONVERSATION_TOOLS[1]| == 9 && |CONVERSATION_TOOLS[2]| == 10;
    assert CONVERSATION_TOOLS[0][0] == 'q' && CONVERSATION_TOOLS[1][0] == 'p' && CONVERSATION_TOOLS[2][0] == 'p';
    assert forall i :: 0 <= i < |names| ==> names[i][0] != 'q' && names[i][0] != 'p';
  }
}
