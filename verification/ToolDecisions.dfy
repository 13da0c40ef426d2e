/**
 * What a legacy `tools` map decides once it is imported, told of what was spelled alone: a tool turned on is
 * allowed and a tool turned off is denied, whatever is called of it, unless a rule that comes after covers it.
 */
module ToolDecisions {
  import opened Optional
  import opened JsonTree
  import opened Tokens
  import opened Landing
  import opened Accounts
  import opened Guarding
  import opened Permissions
  import opened PermissionFold
  import opened FoldOrder

  /** Three names ask for the edit tool, and every other for the tool of that name. */
  predicate AsksFor(name: string, tool: string) {
    if name == "write" || name == "edit" || name == "patch" then tool == "edit" else tool == name
  }

  /** The entry turns a tool on or off. */
  predicate Turns(entry: Entry, tool: string) {
    entry.value.Bool? && AsksFor(entry.key, tool)
  }

  lemma AsksForOne(name: string, tool: string)
    ensures AsksFor(name, tool) <==> tool == ToolNamed(name)
  {}

  /** The entry that has the last word on a tool. */
  predicate LastTurns(tools: seq<Entry>, tool: string, last: nat) {
    last < |tools| && Turns(tools[last], tool) && forall i :: last < i < |tools| ==> !Turns(tools[i], tool)
  }

  lemma {:induction false} LastTurnIsTheFlag(tools: seq<Entry>, tool: string, last: nat)
    requires LastTurns(tools, tool, last)
    ensures LastFlag(tools, tool) == Some(tools[last].value.flag)
  {
    var n := |tools| - 1;
    if last < n {
      assert !Turns(tools[n], tool);
      assert forall i :: last < i < n ==> tools[..n][i] == tools[i];
      LastTurnIsTheFlag(tools[..n], tool, last);
    }
  }

  /** The rules of one name answer no call of a tool the name does not cover. */
  lemma AnswersCovered(name: string, json: Json, permission: string, pattern: string)
    requires RulesOfTool(name, json).Some?
    requires Decide(RulesOfTool(name, json).value, permission, pattern).Some?
    ensures Matches(permission, name)
  {
    var rules := RulesOfTool(name, json).value;
    DecideNone(rules, permission, pattern);
    if json.Object? {
      PatternsNameTheirTool(name, json.entries);
    }
  }

  predicate FirstTurns(tools: seq<Entry>, tool: string, first: nat) {
    first < |tools| && Turns(tools[first], tool) && forall i :: 0 <= i < first ==> !Turns(tools[i], tool)
  }

  /**
   * No rule that comes after the tool's covers the call: no explicit one does, and a name spelled after the tool's
   * first that does asks for a tool that already has its place.
   */
  ghost predicate NothingAfter(tools: seq<Entry>, explicit: seq<Entry>, first: nat, permission: string) {
    && (forall i :: 0 <= i < |explicit| ==> !Matches(permission, explicit[i].key))
    && forall i, other :: first < i < |tools| && Turns(tools[i], other) && Matches(permission, other) ==>
         exists j :: 0 <= j <= first && j < |tools| && Turns(tools[j], other)
  }

  lemma FirstTurnIsItsPlace(tools: seq<Entry>, tool: string, first: nat)
    requires FirstTurns(tools, tool, first)
    ensures ToolAt(tools, tool) == first
  {
    var at := ToolAt(tools, tool);
    assert at < |tools| ==> Turns(tools[at], tool);
  }

  lemma CoveringIsNotExplicit(explicit: seq<Entry>, tool: string, permission: string)
    requires Matches(permission, tool) && forall i :: 0 <= i < |explicit| ==> !Matches(permission, explicit[i].key)
    ensures !Has(explicit, tool)
  {
    assert forall i :: 0 <= i < |explicit| ==> explicit[i].key != tool;
  }

  lemma FlagSays(tools: seq<Entry>, explicit: seq<Entry>, tool: string, last: nat, permission: string, pattern: string)
    requires !Has(explicit, tool) && LastTurns(tools, tool, last) && Matches(permission, tool)
    ensures SaysOf(tools, explicit, tool, permission, pattern)
            == Some(if tools[last].value.flag then Allow else Deny)
  {
    var word := if tools[last].value.flag then "allow" else "deny";
    var rules := [Rule(tool, ANY, ActionOf(word))];
    LastTurnIsTheFlag(tools, tool, last);
    ActionWords();
    AnyMatches(pattern);
    assert RulesOfTool(tool, Str(word)) == Some(rules) && rules[|rules| - 1] == rules[0];
  }

  /** A name that covers the call has its first place before the tool's. */
  lemma CoveringComesBefore(tools: seq<Entry>, explicit: seq<Entry>, tool: string, first: nat, other: string,
                            permission: string)
    requires FirstTurns(tools, tool, first) && NothingAfter(tools, explicit, first, permission) && other != tool
    requires Matches(permission, other) && ToolAt(tools, other) < |tools|
    ensures ToolAt(tools, other) < ToolAt(tools, tool)
  {
    FirstTurnIsItsPlace(tools, tool, first);
    var i := ToolAt(tools, other);
    assert Turns(tools[i], other);
    assert forall j :: 0 <= j < i ==> !Turns(tools[j], other);
  }

  /** Any other name whose rules answer the call has its place before the tool's. */
  lemma OthersComeBefore(tools: seq<Entry>, explicit: seq<Entry>, tool: string, first: nat, other: string,
                         permission: string, pattern: string)
    requires FirstTurns(tools, tool, first) && NothingAfter(tools, explicit, first, permission) && other != tool
    requires SaysOf(tools, explicit, other, permission, pattern).Some? && !Has(explicit, tool)
    ensures FoldBefore(tools, explicit, other, tool)
  {
    AnswersCovered(other, Stated(tools, explicit, other).value, permission, pattern);
    CoveringIsNotExplicit(explicit, other, permission);
    FlagIsNamed(tools, other);
    CoveringComesBefore(tools, explicit, tool, first, other, permission);
  }

  /** So the tool's own rule comes last for the call. */
  lemma FlagComesLast(tools: seq<Entry>, explicit: seq<Entry>, tool: string, first: nat, last: nat, permission: string,
                      pattern: string)
    requires FirstTurns(tools, tool, first) && LastTurns(tools, tool, last) && Matches(permission, tool)
    requires NothingAfter(tools, explicit, first, permission)
    ensures !Has(explicit, tool) && LastInFold(tools, explicit, tool, permission, pattern)
  {
    CoveringIsNotExplicit(explicit, tool, permission);
    FlagSays(tools, explicit, tool, last, permission, pattern);
    forall other | other != tool && SaysOf(tools, explicit, other, permission, pattern).Some?
      ensures FoldBefore(tools, explicit, other, tool)
    {
      OthersComeBefore(tools, explicit, tool, first, other, permission, pattern);
    }
  }

  lemma FoldDecides(at: Place, tools: seq<Entry>, explicit: seq<Entry>, tool: string, first: nat, last: nat,
                    permission: string, pattern: string)
    requires UniqueKeys(explicit) && RulesOfEntries(Folded(at, tools, explicit)).Some?
    requires FirstTurns(tools, tool, first) && LastTurns(tools, tool, last) && Matches(permission, tool)
    requires NothingAfter(tools, explicit, first, permission)
    ensures Decide(RulesOfEntries(Folded(at, tools, explicit)).value, permission, pattern)
            == Some(if tools[last].value.flag then Allow else Deny)
  {
    SameRules(at, tools, explicit);
    FlagComesLast(tools, explicit, tool, first, last, permission, pattern);
    FlagSays(tools, explicit, tool, last, permission, pattern);
    var fold, merge := OneCall(at, tools, explicit, permission, pattern);
    OneLast(at, tools, explicit, tool, fold.value, permission, pattern);
  }

  // The rules are there to be read.

  lemma {:induction false} GuardedPatternsAreWords(from: Path, patterns: seq<Entry>)
    requires forall i :: 0 <= i < |patterns| ==> patterns[i].value.Str?
    ensures forall kept <- GuardedEntries(from, patterns).0 :: kept.value.Str?
  {
    if patterns != [] {
      GuardedPatternsAreWords(from, patterns[..|patterns| - 1]);
    }
  }

  lemma {:induction false} PatternsAreWords(tool: string, patterns: seq<Entry>)
    ensures RulesOfPatterns(tool, patterns).Some? <==> forall i :: 0 <= i < |patterns| ==> patterns[i].value.Str?
  {
    if patterns != [] {
      PatternsAreWords(tool, patterns[1..]);
      assert patterns == [patterns[0]] + patterns[1..];
    }
  }

  /** What guarding leaves of a rule is a rule. */
  lemma GuardedIsARule(from: Path, tool: string, rule: Json)
    requires RulesOfTool(tool, rule).Some?
    ensures var kept := GuardedOf(from, rule).value; kept.Some? ==> RulesOfTool(tool, kept.value).Some?
  {
    if rule.Object? {
      PatternsAreWords(tool, rule.entries);
      GuardedPatternsAreWords(from, rule.entries);
      PatternsAreWords(tool, GuardedEntries(from, rule.entries).0);
    }
  }

  lemma FoldedAreRules(at: Place, tools: seq<Entry>, explicit: seq<Entry>)
    requires UniqueKeys(explicit) && forall i :: 0 <= i < |explicit| ==> IsRule(explicit[i])
    ensures RulesOfEntries(Folded(at, tools, explicit)).Some?
  {
    var all := Folded(at, tools, explicit);
    SameRules(at, tools, explicit);
    forall i | 0 <= i < |all| ensures IsRule(all[i]) {
      var tool := all[i].key;
      IndexOfUnique(all, i);
      BothHoldTheStated(at, tools, explicit, tool);
      if Has(explicit, tool) {
        assert IsRule(explicit[IndexOf(explicit, tool)]);
        GuardedIsARule([] + [Key(tool)], tool, Find(explicit, tool).value);
      }
    }
    RulesOfEach(all);
  }

  lemma FoldIsFolded(at: Place, tools: seq<Entry>, explicit: Option<Json>)
    requires explicit.Some? ==> WellFormed(explicit.value) && !explicit.value.Str?
    ensures PermissionOf(at, Some(Object(tools)), explicit).value == Unless(Folded(at, tools, EntriesIn(explicit)))
  {
    if explicit.Some? && explicit.value.Object? {
      FoldedInOrder(at, tools, explicit.value.entries);
    } else {
      assert Derived(at, false, [], tools).0 + [] == Derived(at, false, [], tools).0;
    }
  }

  /** The value's rules, which are there if what is explicit is rules, decide the call by a flag. */
  ghost predicate Decides(value: Option<Json>, explicit: Option<Json>, permission: string, pattern: string,
                          allowed: bool)
  {
    && value.Some?
    && ((forall i :: 0 <= i < |EntriesIn(explicit)| ==> IsRule(EntriesIn(explicit)[i])) ==> RulesOf(value.value).Some?)
    && (RulesOf(value.value).Some? ==>
        Decide(RulesOf(value.value).value, permission, pattern) == Some(if allowed then Allow else Deny))
  }

  /**
   * Every call of a tool that nothing explicit covers is allowed where the last entry to turn the tool turned it
   * on and denied where it turned it off, as long as no name of another tool covers it from a later place.
   */
  lemma FlagDecides(at: Place, tools: seq<Entry>, explicit: Option<Json>, tool: string, first: nat, last: nat,
                    permission: string, pattern: string)
    requires explicit.Some? ==> WellFormed(explicit.value) && !explicit.value.Str?
    requires FirstTurns(tools, tool, first) && LastTurns(tools, tool, last) && Matches(permission, tool)
    requires NothingAfter(tools, EntriesIn(explicit), first, permission)
    ensures Decides(PermissionOf(at, Some(Object(tools)), explicit).value, explicit, permission, pattern,
                    tools[last].value.flag)
  {
    FoldIsFolded(at, tools, explicit);
    FoldedDecides(at, tools, EntriesIn(explicit), tool, first, last, permission, pattern);
  }

  lemma FoldedDecides(at: Place, tools: seq<Entry>, explicit: seq<Entry>, tool: string, first: nat, last: nat,
                      permission: string, pattern: string)
    requires UniqueKeys(explicit)
    requires FirstTurns(tools, tool, first) && LastTurns(tools, tool, last) && Matches(permission, tool)
    requires NothingAfter(tools, explicit, first, permission)
    ensures Folded(at, tools, explicit) != []
    ensures (forall i :: 0 <= i < |explicit| ==> IsRule(explicit[i])) ==>
              RulesOfEntries(Folded(at, tools, explicit)).Some?
    ensures RulesOfEntries(Folded(at, tools, explicit)).Some? ==>
              Decide(RulesOfEntries(Folded(at, tools, explicit)).value, permission, pattern)
              == Some(if tools[last].value.flag then Allow else Deny)
  {
    FlagComesLast(tools, explicit, tool, first, last, permission, pattern);
    BothHoldTheStated(at, tools, explicit, tool);
    if forall i :: 0 <= i < |explicit| ==> IsRule(explicit[i]) {
      FoldedAreRules(at, tools, explicit);
    }
    if RulesOfEntries(Folded(at, tools, explicit)).Some? {
      FoldDecides(at, tools, explicit, tool, first, last, permission, pattern);
    }
  }

  /** A bare action stands alone, and decides every call. */
  lemma BareActionDecides(at: Place, tools: Option<Json>, word: string, permission: string, pattern: string)
    requires !OnlyToken(word)
    ensures PermissionOf(at, tools, Some(Str(word))).value == Some(Str(word))
    ensures RulesOf(Str(word)).Some? && Decide(RulesOf(Str(word)).value, permission, pattern) == Some(ActionOf(word))
  {
    var rules := [Rule(ANY, ANY, ActionOf(word))];
    GuardRefusesTokens(word);
    AnyMatches(permission);
    AnyMatches(pattern);
    assert RulesOf(Str(word)) == Some(rules) && rules[|rules| - 1] == rules[0];
  }
}
