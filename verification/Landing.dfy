/**
 * What becomes of a key on its way across: a key that keeps its name keeps its value, pruned at most, and
 * each key that is renamed says something of its own under the new name.
 */
module Landing {
  import opened Optional
  import opened JsonTree

  const TOOLS := "tools"
  const PERMISSION := "permission"
  const EDIT := "edit"
  const AGENT := "agent"
  const MODE := "mode"
  const PRIMARY := "primary"
  const NPM := "npm"
  const DIALECT := "dialect"
  const OPTIONS := "options"
  const ENDPOINT := "endpoint"
  const UPSTREAM_URL := "baseURL"
  const BASE_URL := "base_url"
  const HEADERS := "headers"

  /** `result` is `source` with some properties and elements left out and nothing moved or changed. */
  ghost predicate Prunes(source: Json, result: Json)
    decreases source
  {
    match source
    case Array(elements) => result.Array? && PrunesElements(elements, result.elements)
    case Object(entries) => result.Object? && PrunesEntries(entries, result.entries)
    case _ => result == source
  }

  ghost predicate PrunesElements(source: seq<Json>, result: seq<Json>)
    decreases source
  {
    if source == [] then result == []
    else
      var n := |source| - 1;
      || PrunesElements(source[..n], result)
      || (result != [] && Prunes(source[n], result[|result| - 1])
          && PrunesElements(source[..n], result[..|result| - 1]))
  }

  ghost predicate PrunesEntries(source: seq<Entry>, result: seq<Entry>)
    decreases source
  {
    if source == [] then result == []
    else
      var n, m := |source| - 1, |result| - 1;
      || PrunesEntries(source[..n], result)
      || (result != [] && source[n].key == result[m].key && Prunes(source[n].value, result[m].value)
          && PrunesEntries(source[..n], result[..m]))
  }

  lemma {:induction false} PrunesSelf(json: Json)
    ensures Prunes(json, json)
    decreases json, 1
  {
    match json
    case Array(elements) => PrunesSelfElements(elements);
    case Object(entries) => PrunesSelfEntries(entries);
    case _ =>
  }

  lemma {:induction false} PrunesSelfElements(elements: seq<Json>)
    ensures PrunesElements(elements, elements)
    decreases elements, 0
  {
    if elements != [] {
      PrunesSelfElements(elements[..|elements| - 1]);
      PrunesSelf(elements[|elements| - 1]);
    }
  }

  lemma {:induction false} PrunesSelfEntries(entries: seq<Entry>)
    ensures PrunesEntries(entries, entries)
    decreases entries, 0
  {
    if entries != [] {
      PrunesSelfEntries(entries[..|entries| - 1]);
      PrunesSelf(entries[|entries| - 1].value);
    }
  }

  // The renamed keys.

  /** Three tool names ask for the one edit permission. */
  function ToolNamed(name: string): string {
    if name == "write" || name == EDIT || name == "patch" then EDIT else name
  }

  function Spelled(allowed: bool): Json {
    Str(if allowed then "allow" else "deny")
  }

  /** What the last of the names a `tools` map has for `tool` says of it. */
  function LastFlag(tools: seq<Entry>, tool: string): Option<bool> {
    if tools == [] then None
    else
      var n := |tools| - 1;
      if tools[n].value.Bool? && ToolNamed(tools[n].key) == tool then Some(tools[n].value.flag)
      else LastFlag(tools[..n], tool)
  }

  /** The wire an upstream package speaks, when this build has it. */
  function Wire(package: string): Option<string> {
    if package == "@ai-sdk/openai-compatible" then Some("openai-chat-completions")
    else if package == "@ai-sdk/openai" then Some("openai-responses")
    else if package == "@ai-sdk/anthropic" then Some("anthropic-messages")
    else None
  }

  /** Where a provider is reached: its `endpoint`, or failing that its `baseURL`. */
  function Address(options: Json): Option<Json> {
    if Get(options, ENDPOINT).Some? then Get(options, ENDPOINT) else Get(options, UPSTREAM_URL)
  }

  /** A step that leads from a source to the value its result holds for it: `mode` holds agents. */
  predicate Onward(from: Step, to: Step) {
    from.Key? && to.Key? && (from == to || (from == Key(MODE) && to == Key(AGENT)))
  }

  /** What a key at `from` in `source` becomes, at `to` in `result`. */
  ghost predicate Becomes(source: Json, result: Json, from: Path, to: Path)
    decreases |from|
  {
    if from == [] then
      if to == [] then Prunes(source, result) else to == [Key(MODE)] && Get(result, MODE) == Some(Str(PRIMARY))
    else if to != [] && Onward(from[0], to[0]) then
      var child, kept := Get(source, from[0].key), Get(result, to[0].key);
      child.Some? && kept.Some? && Becomes(child.value, kept.value, from[1..], to[1..])
    else if |from| == 2 && from[0] == Key(TOOLS) && from[1].Key? then ToolBecomes(source, result, from[1].key, to)
    else if |from| == 2 && from[0] == Key(OPTIONS) && from[1].Key? then OptionBecomes(source, result, from[1].key, to)
    else if from == [Key(NPM)] then PackageBecomes(source, result, to)
    else from == [Key(OPTIONS)] && to == [] && Get(source, OPTIONS).Some? && result.Object?
  }

  /** A tool's permission is what the last of its names says. */
  ghost predicate ToolBecomes(source: Json, result: Json, name: string, to: Path) {
    var tools, rules := Get(source, TOOLS), Get(result, PERMISSION);
    && to == [Key(PERMISSION), Key(ToolNamed(name))]
    && tools.Some? && Get(tools.value, name).Some? && Get(tools.value, name).value.Bool?
    && var flag := LastFlag(tools.value.entries, ToolNamed(name));
       flag.Some? && rules.Some? && Get(rules.value, ToolNamed(name)) == Some(Spelled(flag.value))
  }

  ghost predicate PackageBecomes(source: Json, result: Json, to: Path) {
    var package := Get(source, NPM);
    && to == [Key(DIALECT)] && package.Some? && package.value.Str? && Wire(package.value.text).Some?
    && Get(result, DIALECT) == Some(Str(Wire(package.value.text).value))
  }

  /** Both of a provider's spellings of its address lead to the one it has. */
  ghost predicate OptionBecomes(source: Json, result: Json, option: string, to: Path) {
    var options := Get(source, OPTIONS);
    && options.Some? && Get(options.value, option).Some?
    && if option == HEADERS
       then
         && to == [Key(HEADERS)] && Get(result, HEADERS).Some?
         && Prunes(Get(options.value, option).value, Get(result, HEADERS).value)
       else
         && option in [ENDPOINT, UPSTREAM_URL] && to == [Key(BASE_URL)]
         && Get(result, BASE_URL) == Address(options.value)
  }

  lemma AtOne(json: Json, path: Path)
    requires |path| == 1 && path[0].Key?
    ensures At(json, path) == Get(json, path[0].key)
  {
    assert path[1..] == [];
  }

  lemma AtTwo(json: Json, path: Path)
    requires |path| == 2 && path[0].Key? && path[1].Key?
    ensures At(json, path)
            == if Get(json, path[0].key).Some? then Get(Get(json, path[0].key).value, path[1].key) else None
  {
    if Get(json, path[0].key).Some? {
      AtOne(Get(json, path[0].key).value, path[1..]);
    }
  }

  /** What becomes of a key is somewhere. */
  lemma {:induction false} BecomesLeads(source: Json, result: Json, from: Path, to: Path)
    requires Becomes(source, result, from, to)
    ensures At(source, from).Some? && At(result, to).Some?
    decreases |from|
  {
    if from != [] && to != [] && Onward(from[0], to[0]) {
      BecomesLeads(Get(source, from[0].key).value, Get(result, to[0].key).value, from[1..], to[1..]);
    } else {
      if |from| == 2 {
        AtTwo(source, from);
      } else if |from| == 1 {
        AtOne(source, from);
      }
      if |to| == 2 {
        AtTwo(result, to);
      } else if |to| == 1 {
        AtOne(result, to);
      }
    }
  }

  // What a key says itself, and when another key has the last word.

  /** The destination holds what this very key said. */
  ghost predicate SaysItself(source: Json, result: Json, from: Path, to: Path)
    decreases |from|
  {
    if from == [] || to == [] then Becomes(source, result, from, to)
    else if Onward(from[0], to[0]) then
      var child, kept := Get(source, from[0].key), Get(result, to[0].key);
      child.Some? && kept.Some? && SaysItself(child.value, kept.value, from[1..], to[1..])
    else if |from| == 2 && from[0] == Key(TOOLS) && from[1].Key? then
      At(source, from).Some? && At(source, from).value.Bool?
        && At(result, to) == Some(Spelled(At(source, from).value.flag))
    else if to == [Key(BASE_URL)] then At(source, from).Some? && At(result, to) == At(source, from)
    else Becomes(source, result, from, to)
  }

  /** A later name of the same tool says otherwise, or an `endpoint` stands beside the `baseURL` and is another. */
  predicate Superseded(source: Json, from: Path, to: Path)
    decreases |from|
  {
    if from == [] || to == [] then false
    else if Onward(from[0], to[0]) then
      Get(source, from[0].key).Some? && Superseded(Get(source, from[0].key).value, from[1..], to[1..])
    else if |from| == 2 && from[0] == Key(TOOLS) && from[1].Key? then
      var tools := Get(source, TOOLS);
      && tools.Some? && tools.value.Object? && Get(tools.value, from[1].key).Some?
         && Get(tools.value, from[1].key).value.Bool?
      && LastFlag(tools.value.entries, ToolNamed(from[1].key)) != Some(Get(tools.value, from[1].key).value.flag)
    else
      from == [Key(OPTIONS), Key(UPSTREAM_URL)] && to == [Key(BASE_URL)]
      && Get(source, OPTIONS).Some? && Get(Get(source, OPTIONS).value, ENDPOINT).Some?
      && Get(Get(source, OPTIONS).value, ENDPOINT) != Get(Get(source, OPTIONS).value, UPSTREAM_URL)
  }

  /** A key's destination holds what the key itself says exactly when no other key has the last word. */
  lemma {:induction false} LastWordExactly(source: Json, result: Json, from: Path, to: Path)
    requires Becomes(source, result, from, to)
    ensures SaysItself(source, result, from, to) <==> !Superseded(source, from, to)
    decreases |from|
  {
    if from != [] && to != [] {
      if Onward(from[0], to[0]) {
        LastWordExactly(Get(source, from[0].key).value, Get(result, to[0].key).value, from[1..], to[1..]);
      } else if |from| == 2 {
        RenamedLastWord(source, result, from, to);
      }
    }
  }

  lemma RenamedLastWord(source: Json, result: Json, from: Path, to: Path)
    requires |from| == 2 && to != [] && !Onward(from[0], to[0]) && Becomes(source, result, from, to)
    ensures SaysItself(source, result, from, to) <==> !Superseded(source, from, to)
  {
    AtTwo(source, from);
    assert from == [from[0], from[1]];
    assert |OPTIONS| == 7 && |TOOLS| == 5 && HEADERS[0] == 'h' && BASE_URL[0] == 'b';
    if from[0] == Key(TOOLS) {
      AtTwo(result, to);
      assert |Spelled(true).text| == 5 && |Spelled(false).text| == 4;
    } else {
      AtOne(result, to);
    }
  }

  lemma {:induction false} SaysItselfLeads(source: Json, result: Json, from: Path, to: Path)
    requires SaysItself(source, result, from, to)
    ensures At(result, to).Some?
    decreases |from|
  {
    if from == [] || to == [] {
      BecomesLeads(source, result, from, to);
    } else if Onward(from[0], to[0]) {
      SaysItselfLeads(Get(source, from[0].key).value, Get(result, to[0].key).value, from[1..], to[1..]);
    } else if Becomes(source, result, from, to) {
      BecomesLeads(source, result, from, to);
    }
  }

  function Get2(json: Json, a: string, b: string): Option<Json> {
    if Get(json, a).Some? then Get(Get(json, a).value, b) else None
  }

  lemma AtBelow(json: Json, a: string, b: string, path: Path)
    requires |path| >= 2 && path[0] == Key(a) && path[1] == Key(b)
    ensures At(json, path) == if Get2(json, a, b).Some? then At(Get2(json, a, b).value, path[2..]) else None
  {
    if Get(json, a).Some? {
      assert path[1..][0] == Key(b) && path[1..][1..] == path[2..];
    }
  }

  lemma SaysItselfBelow(source: Json, result: Json, a: string, b: string, from: Path, to: Path)
    requires |from| >= 2 && |to| >= 2 && from[0] == to[0] == Key(a) && from[1] == to[1] == Key(b)
    requires Get2(source, a, b).Some? && Get2(result, a, b).Some?
    ensures SaysItself(source, result, from, to)
            <==> SaysItself(Get2(source, a, b).value, Get2(result, a, b).value, from[2..], to[2..])
  {
    assert from[1..][0] == Key(b) && to[1..][0] == Key(b);
    assert from[1..][1..] == from[2..] && to[1..][1..] == to[2..];
  }
}
