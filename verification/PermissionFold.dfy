/**
 * The one `permission` value a legacy `tools` map and an explicit `permission` value become: which
 * entries it holds, in what order, and what its rows say.
 */
module PermissionFold {
  import opened Optional
  import opened JsonTree
  import opened DeepMerge
  import opened Tokens
  import opened Landing
  import opened Accounts
  import opened Guarding

  /** The rules a `tools` map asks for, less those something explicit already decides. */
  function Derived(at: Place, replaced: bool, claims: seq<Entry>, tools: seq<Entry>): (seq<Entry>, seq<Row>) {
    if tools == [] then ([], [])
    else
      var n := |tools| - 1;
      var (rules, rows) := Derived(at, replaced, claims, tools[..n]);
      var from, tool := at.from + [Key(TOOLS), Key(tools[n].key)], ToolNamed(tools[n].key);
      if !tools[n].value.Bool? then (rules, rows + [Skipped(from, Malformed)])
      else if replaced || Has(claims, tool) then (rules, rows + [Skipped(from, Overridden)])
      else (Insert(rules, tool, Spelled(tools[n].value.flag)),
            rows + [Mapped(from, at.to + [Key(PERMISSION), Key(tool)])])
  }

  /** The explicit rules put over `rules`. */
  function Explicit(target: Place, rules: seq<Entry>, entries: seq<Entry>): (seq<Entry>, seq<Row>) {
    if entries == [] then (rules, [])
    else
      var n := |entries| - 1;
      var (before, rows) := Explicit(target, rules, entries[..n]);
      var entry := target.Child(entries[n].key);
      var carried := GuardedOf(entry.from, entries[n].value);
      if carried.value.None? then (before, rows + carried.rows)
      else (Insert(before, entries[n].key, carried.value.value), rows + carried.rows + [Mapped(entry.from, entry.to)])
  }

  function EntriesIn(section: Option<Json>): seq<Entry> {
    if section.Some? && section.value.Object? then section.value.entries else []
  }

  function DerivedRules(at: Place, tools: Option<Json>, explicit: Option<Json>): (seq<Entry>, seq<Row>) {
    match tools
    case None => ([], [])
    case Some(value) =>
      if !value.Object? then ([], [Skipped(at.from + [Key(TOOLS)], Malformed)])
      else Derived(at, explicit.Some? && explicit.value.Str?, EntriesIn(explicit), value.entries)
  }

  function PermissionOf(at: Place, tools: Option<Json>, explicit: Option<Json>): Carried {
    var target := at.Child(PERMISSION);
    var (rules, rows) := DerivedRules(at, tools, explicit);
    match explicit
    case None => Carried(Unless(rules), rows)
    case Some(Str(action)) =>
      (match Guard(action)
       case None => Carried(None, rows + [Skipped(target.from, OnlyAToken)])
       case Some(kept) => Carried(Some(Str(kept)), rows + [Mapped(target.from, target.to)]))
    case Some(Object(entries)) =>
      var (all, more) := Explicit(target, rules, entries);
      Carried(Unless(all), rows + more)
    case Some(_) => Carried(Unless(rules), rows + [Skipped(target.from, Malformed)])
  }

  // The entries and their order.

  lemma {:induction false} DerivedUnclaimed(at: Place, replaced: bool, claims: seq<Entry>, tools: seq<Entry>)
    ensures var rules := Derived(at, replaced, claims, tools).0;
            UniqueKeys(rules)
              && forall i :: 0 <= i < |rules| ==>
                 !Has(claims, rules[i].key) && rules[i].value in [Str("allow"), Str("deny")]
  {
    if tools != [] {
      var n := |tools| - 1;
      DerivedUnclaimed(at, replaced, claims, tools[..n]);
      InsertKeepsUnique(Derived(at, replaced, claims, tools[..n]).0, ToolNamed(tools[n].key), Spelled(true));
    }
  }

  /** The explicit entries follow, each at its own place, when none of them is already there. */
  lemma {:induction false} ExplicitAppends(target: Place, rules: seq<Entry>, entries: seq<Entry>)
    requires UniqueKeys(entries) && forall i :: 0 <= i < |entries| ==> !Has(rules, entries[i].key)
    ensures Explicit(target, rules, entries).0 == rules + GuardedEntries(target.from, entries).0
  {
    if entries != [] {
      var n := |entries| - 1;
      ExplicitAppends(target, rules, entries[..n]);
      GuardedKeys(target.from, entries[..n]);
      var before, kept := Explicit(target, rules, entries[..n]).0, GuardedEntries(target.from, entries[..n]).0;
      assert !Has(before, entries[n].key) by {
        HasKeys(before, entries[n].key);
        HasKeys(rules, entries[n].key);
      }
    }
  }

  /**
   * The folded value: the derived entries nothing explicit claims, then the explicit ones, guarded, in
   * their own order.
   */
  lemma FoldedInOrder(at: Place, tools: seq<Entry>, explicit: seq<Entry>)
    requires UniqueKeys(explicit)
    ensures PermissionOf(at, Some(Object(tools)), Some(Object(explicit))).value
            == Unless(Derived(at, false, explicit, tools).0 + GuardedEntries(at.Child(PERMISSION).from, explicit).0)
  {
    var rules := Derived(at, false, explicit, tools).0;
    DerivedUnclaimed(at, false, explicit, tools);
    forall i | 0 <= i < |explicit| ensures !Has(rules, explicit[i].key) {
      HasKeys(rules, explicit[i].key);
      HasKeys(explicit, explicit[i].key);
    }
    ExplicitAppends(at.Child(PERMISSION), rules, explicit);
  }

  /** What the `tools` map asks for when nothing is explicit. */
  function FromTools(tools: seq<Entry>): seq<Entry> {
    Derived(ROOT, false, [], tools).0
  }

  lemma {:induction false} DerivedFinds(at: Place, claims: seq<Entry>, tools: seq<Entry>, key: string)
    ensures Find(Derived(at, false, claims, tools).0, key)
            == if Has(claims, key) then None else Find(FromTools(tools), key)
  {
    if tools != [] {
      var n := |tools| - 1;
      DerivedFinds(at, claims, tools[..n], key);
      if tools[n].value.Bool? {
        var tool, value := ToolNamed(tools[n].key), Spelled(tools[n].value.flag);
        InsertFinds(FromTools(tools[..n]), tool, value, key);
        InsertFinds(Derived(at, false, claims, tools[..n]).0, tool, value, key);
      }
    }
  }

  function GuardedValue(from: Path, key: string, value: Option<Json>): Option<Json> {
    if value.None? then None else GuardedOf(from + [Key(key)], value.value).value
  }

  lemma {:induction false} GuardedFinds(from: Path, entries: seq<Entry>, key: string)
    requires UniqueKeys(entries)
    ensures Find(GuardedEntries(from, entries).0, key) == GuardedValue(from, key, Find(entries, key))
  {
    if entries != [] {
      var n := |entries| - 1;
      GuardedFinds(from, entries[..n], key);
      assert entries == entries[..n] + [entries[n]];
      FindAppend(entries[..n], [entries[n]], key);
      GuardedAppends(from, entries, key);
      if key == entries[n].key {
        HasKeys(entries[..n], key);
      }
    }
  }

  lemma GuardedAppends(from: Path, entries: seq<Entry>, key: string)
    requires entries != []
    ensures var n := |entries| - 1;
            var before, last := GuardedEntries(from, entries[..n]).0,
              GuardedValue(from, entries[n].key, Some(entries[n].value));
            Find(GuardedEntries(from, entries).0, key)
            == if Has(before, key) then Find(before, key) else if key == entries[n].key then last else None
  {
    var n := |entries| - 1;
    var before, last := GuardedEntries(from, entries[..n]).0,
      GuardedOf(from + [Key(entries[n].key)], entries[n].value).value;
    if last.Some? {
      FindAppend(before, [Entry(entries[n].key, last.value)], key);
    }
  }

  /** The merge the fold stands for: derived entries first, each overlaid by what is explicit. */
  function Overlaid(at: Place, tools: seq<Entry>, explicit: seq<Entry>): seq<Entry> {
    GuardedEntries(at.Child(PERMISSION).from, MergeEntries(FromTools(tools), explicit)).0
  }

  function Folded(at: Place, tools: seq<Entry>, explicit: seq<Entry>): seq<Entry> {
    Derived(at, false, explicit, tools).0 + GuardedEntries(at.Child(PERMISSION).from, explicit).0
  }

  lemma ToolsAreHoldable(from: Path, tools: seq<Entry>, key: string)
    requires Find(FromTools(tools), key).Some?
    ensures var rule := Find(FromTools(tools), key); rule.value.Str? && GuardedOf(from, rule.value).value == rule
  {
    DerivedUnclaimed(ROOT, false, [], tools);
    var rule := FromTools(tools)[IndexOf(FromTools(tools), key)].value;
    assert rule == Str("allow") || rule == Str("deny");
    NoTokenIn(rule.text);
  }

  /** As a map from tool to rule, the fold is the guarded merge. */
  lemma FoldIsTheMerge(at: Place, tools: seq<Entry>, explicit: seq<Entry>, key: string)
    requires UniqueKeys(explicit)
    ensures Find(Folded(at, tools, explicit), key) == Find(Overlaid(at, tools, explicit), key)
  {
    var from := at.Child(PERMISSION).from;
    var mine := FromTools(tools);
    DerivedUnclaimed(ROOT, false, [], tools);
    MergedUnique(mine, explicit);
    MergedFinds(mine, explicit, key);
    GuardedFinds(from, MergeEntries(mine, explicit), key);
    GuardedFinds(from, explicit, key);
    DerivedFinds(at, explicit, tools, key);
    FindAppend(Derived(at, false, explicit, tools).0, GuardedEntries(from, explicit).0, key);
    if Find(mine, key).Some? {
      ToolsAreHoldable(from + [Key(key)], tools, key);
    }
  }

  lemma FoldedUnique(at: Place, tools: seq<Entry>, explicit: seq<Entry>)
    requires UniqueKeys(explicit)
    ensures UniqueKeys(Folded(at, tools, explicit)) && UniqueKeys(Overlaid(at, tools, explicit))
  {
    var from := at.Child(PERMISSION).from;
    var rules, kept := Derived(at, false, explicit, tools).0, GuardedEntries(from, explicit).0;
    DerivedUnclaimed(at, false, explicit, tools);
    GuardedKeys(from, explicit);
    forall i, j | 0 <= i < |rules| && 0 <= j < |kept| ensures rules[i].key != kept[j].key {
      HasKeys(explicit, kept[j].key);
    }
    DerivedUnclaimed(ROOT, false, [], tools);
    MergedUnique(FromTools(tools), explicit);
    GuardedKeys(from, MergeEntries(FromTools(tools), explicit));
  }

  lemma NoTokenIn(word: string)
    requires forall i :: 0 <= i < |word| ==> word[i] != '{'
    ensures Guard(word) == Some(word)
  {
    GuardRefusesTokens(word);
    if OnlyToken(word) {
      TokenHasBrace(word);
      assert false;
    }
  }

  lemma TokenHasBrace(word: string)
    requires OnlyToken(word)
    ensures exists i :: 0 <= i < |word| && word[i] == '{'
  {
    OpensWithBrace(Trim(word), 0);
    assert Trim(word)[0] == word[TrimStart(word)];
  }

  // What is spelled for a tool, whichever side spells it.

  /**
   * What the fold and the merge both hold for a tool: what is explicit, guarded, and failing that what `tools`
   * last said.
   */
  function Stated(tools: seq<Entry>, explicit: seq<Entry>, tool: string): Option<Json> {
    if Has(explicit, tool) then GuardedValue([], tool, Find(explicit, tool))
    else if LastFlag(tools, tool).Some? then Some(Spelled(LastFlag(tools, tool).value))
    else None
  }

  lemma {:induction false} GuardedAnywhere(from: Path, other: Path, json: Json)
    ensures GuardedOf(from, json).value == GuardedOf(other, json).value
    decreases json, 1
  {
    match json
    case Array(elements) => GuardedElementsAnywhere(from, other, elements);
    case Object(entries) => GuardedEntriesAnywhere(from, other, entries);
    case _ =>
  }

  lemma {:induction false} GuardedElementsAnywhere(from: Path, other: Path, elements: seq<Json>)
    ensures GuardedElements(from, elements).0 == GuardedElements(other, elements).0
    decreases elements, 0
  {
    if elements != [] {
      var n := |elements| - 1;
      GuardedElementsAnywhere(from, other, elements[..n]);
      GuardedAnywhere(from + [Index(n)], other + [Index(n)], elements[n]);
    }
  }

  lemma {:induction false} GuardedEntriesAnywhere(from: Path, other: Path, entries: seq<Entry>)
    ensures GuardedEntries(from, entries).0 == GuardedEntries(other, entries).0
    decreases entries, 0
  {
    if entries != [] {
      var n := |entries| - 1;
      GuardedEntriesAnywhere(from, other, entries[..n]);
      GuardedAnywhere(from + [Key(entries[n].key)], other + [Key(entries[n].key)], entries[n].value);
    }
  }

  lemma BothHoldTheStated(at: Place, tools: seq<Entry>, explicit: seq<Entry>, tool: string)
    requires UniqueKeys(explicit)
    ensures Find(Folded(at, tools, explicit), tool) == Stated(tools, explicit, tool)
            == Find(Overlaid(at, tools, explicit), tool)
  {
    var from := at.Child(PERMISSION).from;
    FoldIsTheMerge(at, tools, explicit, tool);
    GuardedFinds(from, explicit, tool);
    DerivedFinds(at, explicit, tools, tool);
    LastNameDecides(tools, tool);
    FindAppend(Derived(at, false, explicit, tools).0, GuardedEntries(from, explicit).0, tool);
    if Has(explicit, tool) {
      GuardedAnywhere(from + [Key(tool)], [] + [Key(tool)], Find(explicit, tool).value);
    }
  }

  /**
   * The rule an object's `permission` and `tools` come to for a tool; a bare action in place of the rules
   * leaves none.
   */
  function RuleOf(source: Json, tool: string): Option<Json> {
    var explicit := Get(source, PERMISSION);
    if explicit.Some? && explicit.value.Str? then None
    else Stated(EntriesIn(Get(source, TOOLS)), EntriesIn(explicit), tool)
  }

  lemma RulesFind(at: Place, tools: Option<Json>, explicit: Option<Json>, tool: string)
    requires explicit.Some? ==> WellFormed(explicit.value) && !explicit.value.Str?
    ensures Find(AllRules(at, tools, explicit), tool) == Stated(EntriesIn(tools), EntriesIn(explicit), tool)
  {
    var theirs, mine := EntriesIn(explicit), EntriesIn(tools);
    var rules := Derived(at, false, theirs, mine).0;
    assert DerivedRules(at, tools, explicit).0 == rules;
    BothHoldTheStated(at, mine, theirs, tool);
    if explicit.Some? && explicit.value.Object? {
      DerivedUnclaimedByAny(at, tools, explicit);
      ExplicitAppends(at.Child(PERMISSION), rules, theirs);
    } else {
      assert rules + [] == rules;
    }
  }

  /** What the fold holds for a tool, and for a bare action. */
  lemma FoldHolds(at: Place, source: Json, tool: string)
    requires WellFormed(source)
    ensures var kept := PermissionOf(at, Get(source, TOOLS), Get(source, PERMISSION)).value;
            (if kept.Some? then Get(kept.value, tool) else None) == RuleOf(source, tool)
  {
    var tools, explicit := Get(source, TOOLS), Get(source, PERMISSION);
    if explicit.None? || !explicit.value.Str? {
      RulesFind(at, tools, explicit, tool);
    }
  }

  /** There is a `permission` exactly when there is a bare action worth carrying, or some tool has a rule. */
  lemma FoldIsThere(at: Place, source: Json)
    requires WellFormed(source)
    ensures PermissionOf(at, Get(source, TOOLS), Get(source, PERMISSION)).value.Some? <==> SomeRule(source)
  {
    var tools, explicit := Get(source, TOOLS), Get(source, PERMISSION);
    if explicit.Some? && explicit.value.Str? {
      GuardRefusesTokens(explicit.value.text);
    } else {
      var all := AllRules(at, tools, explicit);
      forall tool ensures RuleOf(source, tool) == Find(all, tool) {
        RulesFind(at, tools, explicit, tool);
      }
      if all != [] {
        assert RuleOf(source, all[0].key).Some?;
      }
    }
  }

  ghost predicate SomeRule(source: Json) {
    var explicit := Get(source, PERMISSION);
    || (explicit.Some? && explicit.value.Str? && !OnlyToken(explicit.value.text))
    || exists tool :: RuleOf(source, tool).Some?
  }

  // The rows.

  lemma NamedHere(rows: seq<Row>, i: nat, path: Path)
    requires i < |rows| && rows[i].from == path
    ensures Named(rows, path)
  {}

  lemma {:induction false} DerivedNamesAll(at: Place, replaced: bool, claims: seq<Entry>, tools: seq<Entry>, i: nat)
    requires i < |tools|
    ensures Named(Derived(at, replaced, claims, tools).1, at.from + [Key(TOOLS)] + [Key(tools[i].key)])
    decreases |tools|
  {
    var n := |tools| - 1;
    var rows, before := Derived(at, replaced, claims, tools).1, Derived(at, replaced, claims, tools[..n]).1;
    if i < n {
      DerivedNamesAll(at, replaced, claims, tools[..n], i);
      NamedMore(before, [rows[|before|]], at.from + [Key(TOOLS)] + [Key(tools[i].key)]);
      assert rows == before + [rows[|before|]];
    } else {
      assert at.from + [Key(TOOLS)] + [Key(tools[n].key)] == at.from + [Key(TOOLS), Key(tools[n].key)];
      NamedHere(rows, |before|, at.from + [Key(TOOLS)] + [Key(tools[n].key)]);
    }
  }

  lemma GuardedRefusalNamed(from: Path, json: Json)
    requires GuardedOf(from, json).value.None?
    ensures Named(GuardedOf(from, json).rows, from)
  {
    NamedHere(GuardedOf(from, json).rows, 0, from);
  }

  lemma {:induction false} ExplicitNamesAll(target: Place, rules: seq<Entry>, entries: seq<Entry>, i: nat)
    requires i < |entries|
    ensures Named(Explicit(target, rules, entries).1, target.from + [Key(entries[i].key)])
    decreases |entries|
  {
    var n := |entries| - 1;
    var before := Explicit(target, rules, entries[..n]).1;
    var entry := target.Child(entries[n].key);
    var carried := GuardedOf(entry.from, entries[n].value);
    var last := carried.rows + if carried.value.None? then [] else [Mapped(entry.from, entry.to)];
    assert Explicit(target, rules, entries).1 == before + last;
    if i < n {
      ExplicitNamesAll(target, rules, entries[..n], i);
      NamedMore(before, last, target.from + [Key(entries[i].key)]);
    } else {
      if carried.value.None? {
        GuardedRefusalNamed(entry.from, entries[n].value);
        NamedMore(carried.rows, [], entry.from);
      } else {
        NamedHere(last, |carried.rows|, entry.from);
      }
      NamedMore(last, before, entry.from);
    }
  }

  /** What the fold writes of the explicit side. */
  function ExplicitRows(at: Place, tools: Option<Json>, explicit: Option<Json>): seq<Row> {
    var target := at.Child(PERMISSION);
    match explicit
    case None => []
    case Some(Str(action)) =>
      if Guard(action).None? then [Skipped(target.from, OnlyAToken)] else [Mapped(target.from, target.to)]
    case Some(Object(entries)) => Explicit(target, DerivedRules(at, tools, explicit).0, entries).1
    case Some(_) => [Skipped(target.from, Malformed)]
  }

  lemma FoldSplits(at: Place, tools: Option<Json>, explicit: Option<Json>)
    ensures PermissionOf(at, tools, explicit).rows
            == DerivedRules(at, tools, explicit).1 + ExplicitRows(at, tools, explicit)
  {}

  lemma ToolsAccount(at: Place, tools: Json, explicit: Option<Json>)
    ensures Accounted(DerivedRules(at, Some(tools), explicit).1, at.from + [Key(TOOLS)], tools)
  {
    var rows, from := DerivedRules(at, Some(tools), explicit).1, at.from + [Key(TOOLS)];
    if tools.Object? {
      forall i | 0 <= i < |tools.entries| ensures Named(rows, from + [Key(tools.entries[i].key)]) {
        DerivedNamesAll(at, explicit.Some? && explicit.value.Str?, EntriesIn(explicit), tools.entries, i);
      }
    } else {
      NamedHere(rows, 0, from);
    }
  }

  lemma ExplicitAccounts(at: Place, tools: Option<Json>, explicit: Json)
    ensures Accounted(ExplicitRows(at, tools, Some(explicit)), at.from + [Key(PERMISSION)], explicit)
  {
    var rows, target := ExplicitRows(at, tools, Some(explicit)), at.Child(PERMISSION);
    if explicit.Object? {
      forall i | 0 <= i < |explicit.entries| ensures Named(rows, target.from + [Key(explicit.entries[i].key)]) {
        ExplicitNamesAll(target, DerivedRules(at, tools, Some(explicit)).0, explicit.entries, i);
      }
    } else {
      NamedHere(rows, 0, target.from);
    }
  }

  /** Every rule either side spelled has a row. */
  lemma PermissionAccounts(at: Place, tools: Option<Json>, explicit: Option<Json>)
    ensures var rows := PermissionOf(at, tools, explicit).rows;
            && (tools.Some? ==> Accounted(rows, at.from + [Key(TOOLS)], tools.value))
            && (explicit.Some? ==> Accounted(rows, at.from + [Key(PERMISSION)], explicit.value))
  {
    var mine, theirs := DerivedRules(at, tools, explicit).1, ExplicitRows(at, tools, explicit);
    FoldSplits(at, tools, explicit);
    if tools.Some? {
      ToolsAccount(at, tools.value, explicit);
      AccountedMore(mine, theirs, at.from + [Key(TOOLS)], tools.value);
    }
    if explicit.Some? {
      ExplicitAccounts(at, tools, explicit.value);
      AccountedMore(theirs, mine, at.from + [Key(PERMISSION)], explicit.value);
    }
  }

  /**
   * A row about one `tools` entry, which is there; if it says the entry became a rule, nothing explicit claims
   * that rule.
   */
  predicate AboutATool(row: Row, at: Place, claims: seq<Entry>, tools: seq<Entry>) {
    var n := |at.from|;
    && |row.from| == n + 2 && row.from[..n] == at.from && row.from[n] == Key(TOOLS)
    && row.from[n + 1].Key? && Has(tools, row.from[n + 1].key)
    && (row.Mapped? ==>
          var tool := ToolNamed(row.from[n + 1].key);
          && row.to == at.to + [Key(PERMISSION), Key(tool)]
          && Find(tools, row.from[n + 1].key).value.Bool? && !Has(claims, tool))
  }

  predicate AllAboutTools(rows: seq<Row>, at: Place, claims: seq<Entry>, tools: seq<Entry>) {
    forall i :: 0 <= i < |rows| ==> AboutATool(rows[i], at, claims, tools)
  }

  lemma AboutToolsGrows(rows: seq<Row>, at: Place, claims: seq<Entry>, tools: seq<Entry>, n: nat)
    requires n < |tools| && UniqueKeys(tools) && AllAboutTools(rows, at, claims, tools[..n])
    ensures AllAboutTools(rows, at, claims, tools[..n + 1])
  {
    assert tools[..n + 1] == tools[..n] + [tools[n]];
    forall i | 0 <= i < |rows| ensures AboutATool(rows[i], at, claims, tools[..n + 1]) {
      FindAppend(tools[..n], [tools[n]], rows[i].from[|at.from| + 1].key);
    }
  }

  lemma {:induction false} DerivedAboutTools(at: Place, replaced: bool, claims: seq<Entry>, tools: seq<Entry>, n: nat)
    requires n <= |tools| && UniqueKeys(tools)
    ensures var rows := Derived(at, replaced, claims, tools[..n]).1;
            AllAboutTools(rows, at, claims, tools[..n]) && (replaced ==> AllSkipped(rows))
  {
    if n > 0 {
      var m := n - 1;
      DerivedAboutTools(at, replaced, claims, tools, m);
      AboutToolsGrows(Derived(at, replaced, claims, tools[..m]).1, at, claims, tools, m);
      assert tools[..n][..m] == tools[..m];
      IndexOfUnique(tools[..n], m);
      var earlier, rows := Derived(at, replaced, claims, tools[..m]).1, Derived(at, replaced, claims, tools[..n]).1;
      assert rows == earlier + [rows[|earlier|]] && AboutATool(rows[|earlier|], at, claims, tools[..n]);
    }
  }

  /** What `tools` comes to for one tool is what the last of the tool's names says. */
  lemma {:induction false} LastNameDecides(tools: seq<Entry>, tool: string)
    ensures var flag := LastFlag(tools, tool);
            Find(FromTools(tools), tool) == if flag.Some? then Some(Spelled(flag.value)) else None
  {
    if tools != [] {
      var n := |tools| - 1;
      LastNameDecides(tools[..n], tool);
      if tools[n].value.Bool? {
        InsertFinds(FromTools(tools[..n]), ToolNamed(tools[n].key), Spelled(tools[n].value.flag), tool);
      }
    }
  }

  lemma {:induction false} NamedSomewhere(tools: seq<Entry>, i: nat)
    requires i < |tools| && tools[i].value.Bool?
    ensures LastFlag(tools, ToolNamed(tools[i].key)).Some?
    decreases |tools|
  {
    if i < |tools| - 1 {
      NamedSomewhere(tools[..|tools| - 1], i);
    }
  }

  lemma AboutAToolHonest(row: Row, at: Place, claims: seq<Entry>, tools: seq<Entry>, source: Json, grown: Option<Json>)
    requires AboutATool(row, at, claims, tools) && Get(source, TOOLS) == Some(Object(tools))
    requires row.Mapped? ==>
               var tool := ToolNamed(row.from[|at.from| + 1].key);
               && LastFlag(tools, tool).Some? && grown.Some?
               && Get2(grown.value, PERMISSION, tool) == Some(Spelled(LastFlag(tools, tool).value))
    ensures Honest(row, at, source, grown)
  {
    var from := row.from[|at.from|..];
    AtTwo(source, from);
    if row.Mapped? {
      assert row.to[|at.to|..] == [Key(PERMISSION), Key(ToolNamed(from[1].key))];
      assert TOOLS[0] == 't' && PERMISSION[0] == 'p';
      assert ToolBecomes(source, grown.value, from[1].key, row.to[|at.to|..]);
    }
  }

  lemma GuardedHonest(place: Place, json: Json, result: Option<Json>)
    requires WellFormed(json)
    ensures AllHonest(GuardedOf(place.from, json).rows, place, json, result)
  {
    GuardedRowsExplain(place.from, json);
  }

  function LastRows(target: Place, entry: Entry): seq<Row> {
    var at := target.Child(entry.key);
    var carried := GuardedOf(at.from, entry.value);
    carried.rows + if carried.value.None? then [] else [Mapped(at.from, at.to)]
  }

  lemma ExplicitStep(target: Place, rules: seq<Entry>, entries: seq<Entry>, n: nat)
    requires n < |entries| && UniqueKeys(entries) && !Has(rules, entries[n].key)
    requires forall i :: 0 <= i < |entries| ==> !Has(rules, entries[i].key)
    ensures var (before, earlier) := Explicit(target, rules, entries[..n]);
            var (kept, rows) := Explicit(target, rules, entries[..n + 1]);
            var carried := GuardedOf(target.from + [Key(entries[n].key)], entries[n].value).value;
            && rows == earlier + LastRows(target, entries[n])
            && kept == (if carried.Some? then before + [Entry(entries[n].key, carried.value)] else before)
            && !Has(before, entries[n].key)
  {
    var key := entries[n].key;
    assert entries[..n + 1][..n] == entries[..n];
    ExplicitAppends(target, rules, entries[..n]);
    GuardedFinds(target.from, entries[..n], key);
    FindAppend(rules, GuardedEntries(target.from, entries[..n]).0, key);
    HasKeys(entries[..n], key);
  }

  lemma LastHonest(target: Place, entries: seq<Entry>, n: nat, kept: Json)
    requires n < |entries| && WellFormed(Object(entries))
    requires var carried := GuardedOf(target.from + [Key(entries[n].key)], entries[n].value).value;
             carried.Some? ==> Get(kept, entries[n].key) == carried
    ensures AllHonest(LastRows(target, entries[n]), target, Object(entries), Some(kept))
    ensures AllBelow(LastRows(target, entries[n]), target.from)
  {
    var entry := target.Child(entries[n].key);
    var carried := GuardedOf(entry.from, entries[n].value);
    GuardedHonest(entry, entries[n].value, carried.value);
    GuardedPrunes(entry.from, entries[n].value);
    IndexOfUnique(entries, n);
    AllHonestOfChild(LastRows(target, entries[n]), target, entries[n].key, Object(entries), entries[n].value,
                     carried.value, Some(kept));
  }

  lemma ExplicitGrows(target: Place, entries: seq<Entry>, n: nat, before: seq<Entry>, rows: seq<Row>, kept: seq<Entry>)
    requires n < |entries| && WellFormed(Object(entries)) && !Has(before, entries[n].key)
    requires var carried := GuardedOf(target.from + [Key(entries[n].key)], entries[n].value).value;
             kept == if carried.Some? then before + [Entry(entries[n].key, carried.value)] else before
    requires AllHonest(rows, target, Object(entries), Some(Object(before))) && AllBelow(rows, target.from)
    ensures AllHonest(rows + LastRows(target, entries[n]), target, Object(entries), Some(Object(kept)))
    ensures AllBelow(rows + LastRows(target, entries[n]), target.from)
  {
    var more := kept[|before|..];
    assert kept == before + more;
    forall key ensures Find(kept, key) == if Has(before, key) then Find(before, key) else Find(more, key) {
      FindAppend(before, more, key);
    }
    HonestGrows(rows, target, Object(entries), Object(before), Object(kept));
    LastHonest(target, entries, n, Object(kept));
    AllHonestBoth(rows, LastRows(target, entries[n]), target, Object(entries), Some(Object(kept)));
  }

  /** Where the explicit rules stand: the rows honest about what is kept, and none of them mapped when nothing is. */
  ghost predicate Stands(target: Place, entries: seq<Entry>, kept: seq<Entry>, rows: seq<Row>) {
    && AllHonest(rows, target, Object(entries), Some(Object(kept))) && AllBelow(rows, target.from)
    && (kept == [] ==> AllSkipped(rows))
  }

  lemma StandsNext(target: Place, entries: seq<Entry>, n: nat, before: seq<Entry>, rows: seq<Row>, kept: seq<Entry>)
    requires n < |entries| && WellFormed(Object(entries)) && !Has(before, entries[n].key)
    requires var carried := GuardedOf(target.from + [Key(entries[n].key)], entries[n].value).value;
             kept == if carried.Some? then before + [Entry(entries[n].key, carried.value)] else before
    requires Stands(target, entries, before, rows)
    ensures Stands(target, entries, kept, rows + LastRows(target, entries[n]))
  {
    ExplicitGrows(target, entries, n, before, rows, kept);
    if kept == [] {
      GuardedAllSkipped(target.from + [Key(entries[n].key)], entries[n].value);
    }
  }

  lemma {:induction false} ExplicitHonest(target: Place, rules: seq<Entry>, entries: seq<Entry>, n: nat)
    requires n <= |entries| && WellFormed(Object(entries))
             && forall i :: 0 <= i < |entries| ==> !Has(rules, entries[i].key)
    ensures var (kept, rows) := Explicit(target, rules, entries[..n]);
            Stands(target, entries, kept, rows)
  {
    if n > 0 {
      ExplicitHonest(target, rules, entries, n - 1);
      ExplicitStep(target, rules, entries, n - 1);
      var (before, earlier) := Explicit(target, rules, entries[..n - 1]);
      StandsNext(target, entries, n - 1, before, earlier, Explicit(target, rules, entries[..n]).0);
    }
  }

  predicate AllSkipped(rows: seq<Row>) {
    forall i :: 0 <= i < |rows| ==> rows[i].Skipped?
  }

  lemma {:induction false} GuardedAllSkipped(from: Path, json: Json)
    ensures AllSkipped(GuardedOf(from, json).rows)
    decreases json, 1
  {
    match json
    case Array(elements) => GuardedElementsSkipped(from, elements);
    case Object(entries) => GuardedEntriesSkipped(from, entries);
    case _ =>
  }

  lemma {:induction false} GuardedElementsSkipped(from: Path, elements: seq<Json>)
    ensures AllSkipped(GuardedElements(from, elements).1)
    decreases elements, 0
  {
    if elements != [] {
      GuardedElementsSkipped(from, elements[..|elements| - 1]);
      GuardedAllSkipped(from + [Index(|elements| - 1)], elements[|elements| - 1]);
    }
  }

  lemma {:induction false} GuardedEntriesSkipped(from: Path, entries: seq<Entry>)
    ensures AllSkipped(GuardedEntries(from, entries).1)
    decreases entries, 0
  {
    if entries != [] {
      var last := entries[|entries| - 1];
      GuardedEntriesSkipped(from, entries[..|entries| - 1]);
      GuardedAllSkipped(from + [Key(last.key)], last.value);
    }
  }

  /** Every rule the fold ends with. */
  function AllRules(at: Place, tools: Option<Json>, explicit: Option<Json>): seq<Entry> {
    var (rules, rows) := DerivedRules(at, tools, explicit);
    if explicit.Some? && explicit.value.Object?
    then Explicit(at.Child(PERMISSION), rules, explicit.value.entries).0
    else rules
  }

  /**
   * Each row of the fold names what was spelled, and what it says landed is under `permission`: as it was, or
   * as the last of a tool's names says.
   */
  lemma PermissionHonest(at: Place, source: Json, grown: Option<Json>)
    requires WellFormed(source) && source.Object?
    requires var value := PermissionOf(at, Get(source, TOOLS), Get(source, PERMISSION)).value;
             value.Some? ==> grown.Some? && Get(grown.value, PERMISSION) == value
    ensures AllHonest(PermissionOf(at, Get(source, TOOLS), Get(source, PERMISSION)).rows, at, source, grown)
    ensures AllBelow(PermissionOf(at, Get(source, TOOLS), Get(source, PERMISSION)).rows, at.from)
  {
    var tools, explicit := Get(source, TOOLS), Get(source, PERMISSION);
    FoldSplits(at, tools, explicit);
    if explicit.Some? && !explicit.value.Object? {
      PlainExplicitHonest(at, source, grown, explicit.value);
    } else if explicit.Some? {
      ExplicitRulesHonest(at, source, grown, explicit.value);
    }
    DerivedHonest(at, source, grown);
    AllHonestBoth(DerivedRules(at, tools, explicit).1, ExplicitRows(at, tools, explicit), at, source, grown);
  }

  lemma PlainExplicitHonest(at: Place, source: Json, grown: Option<Json>, explicit: Json)
    requires Get(source, PERMISSION) == Some(explicit) && !explicit.Object?
    requires var value := PermissionOf(at, Get(source, TOOLS), Some(explicit)).value;
             value.Some? ==> grown.Some? && Get(grown.value, PERMISSION) == value
    ensures var rows := ExplicitRows(at, Get(source, TOOLS), Some(explicit));
            AllHonest(rows, at, source, grown) && AllBelow(rows, at.from)
  {
    var target, rows := at.Child(PERMISSION), ExplicitRows(at, Get(source, TOOLS), Some(explicit));
    if explicit.Str? {
      GuardRefusesTokens(explicit.text);
    }
    var own := if rows[0].Mapped? then Some(explicit) else None;
    OwnRowHonest(rows[0], target, explicit, own);
    assert rows == [rows[0]];
    AllHonestOfChild(rows, at, PERMISSION, source, explicit, own, grown);
  }

  lemma ExplicitRulesHonest(at: Place, source: Json, grown: Option<Json>, explicit: Json)
    requires WellFormed(source) && Get(source, PERMISSION) == Some(explicit) && explicit.Object?
    requires var value := PermissionOf(at, Get(source, TOOLS), Some(explicit)).value;
             value.Some? ==> grown.Some? && Get(grown.value, PERMISSION) == value
    ensures var rows :=
            Explicit(at.Child(PERMISSION), DerivedRules(at, Get(source, TOOLS), Some(explicit)).0, explicit.entries).1;
            AllHonest(rows, at, source, grown) && AllBelow(rows, at.from)
  {
    var entries, target, rules := explicit.entries, at.Child(PERMISSION),
      DerivedRules(at, Get(source, TOOLS), Some(explicit)).0;
    assert entries[..|entries|] == entries;
    DerivedUnclaimedByAny(at, Get(source, TOOLS), Some(explicit));
    ExplicitHonest(target, rules, entries, |entries|);
    var (kept, rows) := Explicit(target, rules, entries);
    LiftExplicit(rows, target, at, source, explicit, kept, grown);
  }

  lemma DerivedHonest(at: Place, source: Json, grown: Option<Json>)
    requires WellFormed(source)
    requires var value := PermissionOf(at, Get(source, TOOLS), Get(source, PERMISSION)).value;
             value.Some? ==> grown.Some? && Get(grown.value, PERMISSION) == value
    ensures var rows := DerivedRules(at, Get(source, TOOLS), Get(source, PERMISSION)).1;
            AllHonest(rows, at, source, grown) && AllBelow(rows, at.from)
  {
    var tools := Get(source, TOOLS);
    if tools.Some? && tools.value.Object? {
      ToolsHonest(at, source, tools.value.entries, grown);
    } else if tools.Some? {
      var step := [Key(TOOLS)];
      AtOne(source, step);
      assert (at.from + step)[|at.from|..] == step;
    }
  }

  lemma ToolsHonest(at: Place, source: Json, tools: seq<Entry>, grown: Option<Json>)
    requires WellFormed(source) && Get(source, TOOLS) == Some(Object(tools))
    requires var value := PermissionOf(at, Get(source, TOOLS), Get(source, PERMISSION)).value;
             value.Some? ==> grown.Some? && Get(grown.value, PERMISSION) == value
    ensures var rows := DerivedRules(at, Get(source, TOOLS), Get(source, PERMISSION)).1;
            AllHonest(rows, at, source, grown) && AllBelow(rows, at.from)
  {
    var explicit := Get(source, PERMISSION);
    var replaced, claims := explicit.Some? && explicit.value.Str?, EntriesIn(explicit);
    var rows := Derived(at, replaced, claims, tools).1;
    assert tools[..|tools|] == tools;
    DerivedAboutTools(at, replaced, claims, tools, |tools|);
    forall i | 0 <= i < |rows| ensures Honest(rows[i], at, source, grown) {
      if rows[i].Mapped? {
        var name := rows[i].from[|at.from| + 1].key;
        NamedSomewhere(tools, IndexOf(tools, name));
        FoldHolds(at, source, ToolNamed(name));
      }
      AboutAToolHonest(rows[i], at, claims, tools, source, grown);
    }
  }

  lemma DerivedUnclaimedByAny(at: Place, tools: Option<Json>, explicit: Option<Json>)
    requires explicit.Some? && explicit.value.Object?
    ensures forall i :: 0 <= i < |explicit.value.entries| ==>
            !Has(DerivedRules(at, tools, explicit).0, explicit.value.entries[i].key)
  {
    var entries, rules := explicit.value.entries, DerivedRules(at, tools, explicit).0;
    if tools.Some? && tools.value.Object? {
      DerivedUnclaimed(at, false, entries, tools.value.entries);
    }
    forall i | 0 <= i < |entries| ensures !Has(rules, entries[i].key) {
      HasKeys(rules, entries[i].key);
      HasKeys(entries, entries[i].key);
    }
  }

  lemma LiftExplicit(rows: seq<Row>, target: Place, at: Place, source: Json, explicit: Json, all: seq<Entry>,
                     grown: Option<Json>)
    requires target == at.Child(PERMISSION) && Get(source, PERMISSION) == Some(explicit)
    requires AllHonest(rows, target, explicit, Some(Object(all)))
    requires all != [] ==> grown.Some? && Get(grown.value, PERMISSION) == Some(Object(all))
    requires AllBelow(rows, target.from) && (all == [] ==> AllSkipped(rows))
    ensures AllHonest(rows, at, source, grown) && AllBelow(rows, at.from)
  {
    AllHonestOfChild(rows, at, PERMISSION, source, explicit, Unless(all), grown);
  }

  const WRITE := "write"

  /** Two names of one tool: each has a row saying it landed, and the rule is the last one's. */
  lemma EarlierNameSuperseded(at: Place, first: bool, last: bool)
    ensures var tools := [Entry(WRITE, Bool(first)), Entry(EDIT, Bool(last))];
            var landed := at.to + [Key(PERMISSION), Key(EDIT)];
            PermissionOf(at, Some(Object(tools)), None)
            == Carried(Some(Object([Entry(EDIT, Spelled(last))])),
                       [Mapped(at.from + [Key(TOOLS), Key(WRITE)], landed),
                        Mapped(at.from + [Key(TOOLS), Key(EDIT)], landed)])
  {
    var tools := [Entry(WRITE, Bool(first)), Entry(EDIT, Bool(last))];
    assert tools[..1] == [tools[0]] && tools[..1][..0] == [];
    var before := Derived(at, false, [], tools[..1]);
    assert ToolNamed(WRITE) == EDIT && ToolNamed(EDIT) == EDIT && tools[..1] == [Entry(WRITE, Bool(first))];
    assert Derived(at, false, [], []) == ([], []) && Insert([], EDIT, Spelled(first)) == [Entry(EDIT, Spelled(first))];
    assert before.0 == [Entry(EDIT, Spelled(first))];
    assert [] + [Mapped(at.from + [Key(TOOLS), Key(WRITE)], at.to + [Key(PERMISSION), Key(EDIT)])] == before.1;
    assert Insert(before.0, EDIT, Spelled(last)) == [Entry(EDIT, Spelled(last))];
  }
}
