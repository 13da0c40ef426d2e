/**
 * When the folded `permission` decides every call as the merge it stands for would: both hold the same
 * rules, and of two that answer one call the later decides.
 */
module FoldOrder {
  import opened Lists
  import opened Optional
  import opened JsonTree
  import opened DeepMerge
  import opened Tokens
  import opened Landing
  import opened Accounts
  import opened Guarding
  import opened Permissions
  import opened PermissionFold

  // Where each name stands, read off what was spelled.

  predicate Before(entries: seq<Entry>, a: string, b: string) {
    IndexOf(entries, a) < IndexOf(entries, b)
  }

  /** The first entry of a `tools` map that asks for `tool`; past the end when none does. */
  function ToolAt(tools: seq<Entry>, tool: string): (i: nat)
    ensures i <= |tools|
    ensures i < |tools| ==> tools[i].value.Bool? && ToolNamed(tools[i].key) == tool
    ensures forall j :: 0 <= j < i && tools[j].value.Bool? ==> ToolNamed(tools[j].key) != tool
  {
    FirstWhere(tools, (entry: Entry) => entry.value.Bool? && ToolNamed(entry.key) == tool)
  }

  /** In the fold what is explicit follows what is not. */
  predicate FoldBefore(tools: seq<Entry>, explicit: seq<Entry>, a: string, b: string) {
    if Has(explicit, a) then Has(explicit, b) && Before(explicit, a, b)
    else Has(explicit, b) || ToolAt(tools, a) < ToolAt(tools, b)
  }

  /** In the merge what `tools` names keeps the place it has there, and the rest of what is explicit follows. */
  predicate MergeBefore(tools: seq<Entry>, explicit: seq<Entry>, a: string, b: string) {
    if ToolAt(tools, a) < |tools| then ToolAt(tools, a) < ToolAt(tools, b)
    else ToolAt(tools, b) == |tools| && Before(explicit, a, b)
  }

  lemma IndexAppend(a: seq<Entry>, b: seq<Entry>, key: string)
    ensures IndexOf(a + b, key) == if Has(a, key) then IndexOf(a, key) else |a| + IndexOf(b, key)
  {
    var c := a + b;
    var i, j, k := IndexOf(c, key), IndexOf(a, key), IndexOf(b, key);
    if j < |a| {
      assert c[j] == a[j];
    } else {
      assert forall n :: 0 <= n < |b| ==> c[|a| + n] == b[n];
      assert forall n :: 0 <= n < |a| ==> c[n] == a[n];
      assert k < |b| ==> c[|a| + k].key == key;
      assert |a| <= i < |c| ==> b[i - |a|].key == key;
    }
  }

  lemma InsertIndex(entries: seq<Entry>, key: string, value: Json, other: string)
    ensures IndexOf(Insert(entries, key, value), other)
            == if Has(entries, other) then IndexOf(entries, other)
               else if other == key then |entries| else |Insert(entries, key, value)|
  {
    if Has(entries, key) {
      var after := Insert(entries, key, value);
      assert forall k :: 0 <= k < |entries| ==> after[k].key == entries[k].key;
      var i, j := IndexOf(entries, other), IndexOf(after, other);
      assert i < |entries| ==> after[i].key == other;
      assert j < |entries| ==> entries[j].key == other;
    } else {
      IndexAppend(entries, [Entry(key, value)], other);
    }
  }

  lemma ToolAtLonger(tools: seq<Entry>, n: nat, tool: string)
    requires n < |tools|
    ensures ToolAt(tools[..n + 1], tool)
            == if ToolAt(tools[..n], tool) < n then ToolAt(tools[..n], tool)
               else if tools[n].value.Bool? && ToolNamed(tools[n].key) == tool then n else n + 1
  {
    var i, j := ToolAt(tools[..n + 1], tool), ToolAt(tools[..n], tool);
    assert forall k :: 0 <= k < n ==> tools[..n + 1][k] == tools[..n][k];
    assert tools[..n + 1][n] == tools[n];
  }

  ghost predicate InTheirOrder(rules: seq<Entry>, claims: seq<Entry>, tools: seq<Entry>, a: string, b: string) {
    && (Has(rules, a) <==> ToolAt(tools, a) < |tools| && !Has(claims, a))
    && (Has(rules, b) <==> ToolAt(tools, b) < |tools| && !Has(claims, b))
    && (Has(rules, a) && Has(rules, b) ==> (Before(rules, a, b) <==> ToolAt(tools, a) < ToolAt(tools, b)))
  }

  /** One more entry of `tools` inserts its rule or leaves the rules as they were. */
  lemma OrderStep(before: seq<Entry>, claims: seq<Entry>, tools: seq<Entry>, m: nat, rules: seq<Entry>, a: string,
                  b: string)
    requires a != b && m < |tools| && InTheirOrder(before, claims, tools[..m], a, b)
    requires var tool := ToolNamed(tools[m].key);
             rules == if tools[m].value.Bool? && !Has(claims, tool)
                      then Insert(before, tool, Spelled(tools[m].value.flag))
                      else before
    ensures InTheirOrder(rules, claims, tools[..m + 1], a, b)
  {
    ToolAtLonger(tools, m, a);
    ToolAtLonger(tools, m, b);
    if tools[m].value.Bool? {
      InsertIndex(before, ToolNamed(tools[m].key), Spelled(tools[m].value.flag), a);
      InsertIndex(before, ToolNamed(tools[m].key), Spelled(tools[m].value.flag), b);
    }
  }

  /** The derived rules stand in the order `tools` first asked for them. */
  lemma {:induction false} DerivedOrder(at: Place, claims: seq<Entry>, tools: seq<Entry>, n: nat, a: string, b: string)
    requires a != b && n <= |tools|
    ensures InTheirOrder(Derived(at, false, claims, tools[..n]).0, claims, tools[..n], a, b)
  {
    if n > 0 {
      DerivedOrder(at, claims, tools, n - 1, a, b);
      assert tools[..n][..n - 1] == tools[..n - 1];
      OrderStep(Derived(at, false, claims, tools[..n - 1]).0, claims, tools, n - 1,
                Derived(at, false, claims, tools[..n]).0, a, b);
    }
  }

  /** What of `entries` is kept stands as it stood. */
  ghost predicate KeepsOrder(kept: seq<Entry>, entries: seq<Entry>, a: string, b: string) {
    && (Has(kept, a) ==> Has(entries, a)) && (Has(kept, b) ==> Has(entries, b))
    && (Has(kept, a) && Has(kept, b) ==> (Before(kept, a, b) <==> Before(entries, a, b)))
  }

  lemma KeepsOrderStep(before: seq<Entry>, entries: seq<Entry>, last: Entry, kept: seq<Entry>, a: string, b: string)
    requires a != b && KeepsOrder(before, entries, a, b) && !Has(entries, last.key)
    requires kept == before || (|kept| == |before| + 1 && kept[..|before|] == before && kept[|before|].key == last.key)
    ensures KeepsOrder(kept, entries + [last], a, b)
  {
    IndexAppend(entries, [last], a);
    IndexAppend(entries, [last], b);
    if kept != before {
      assert kept == before + [kept[|before|]];
      IndexAppend(before, [kept[|before|]], a);
      IndexAppend(before, [kept[|before|]], b);
    }
  }

  /** Guarding moves nothing. */
  lemma {:induction false} GuardedOrder(from: Path, entries: seq<Entry>, n: nat, a: string, b: string)
    requires UniqueKeys(entries) && a != b && n <= |entries|
    ensures KeepsOrder(GuardedEntries(from, entries[..n]).0, entries[..n], a, b)
  {
    if n > 0 {
      var m := n - 1;
      GuardedOrder(from, entries, m, a, b);
      assert entries[..n][..m] == entries[..m] && entries[..n] == entries[..m] + [entries[m]];
      KeepsOrderStep(GuardedEntries(from, entries[..m]).0, entries[..m], entries[m],
                     GuardedEntries(from, entries[..n]).0, a, b);
    }
  }

  /** A merge keeps the target's order and puts the rest after it in the source's. */
  lemma {:induction false} MergeOrder(mine: seq<Entry>, theirs: seq<Entry>, a: string, b: string)
    requires UniqueKeys(theirs) && a != b
    requires Has(MergeEntries(mine, theirs), a) && Has(MergeEntries(mine, theirs), b)
    ensures Before(MergeEntries(mine, theirs), a, b)
            <==> if Has(mine, a) then Has(mine, b) ==> Before(mine, a, b) else !Has(mine, b) && Before(theirs, a, b)
    decreases theirs
  {
    if theirs != [] {
      var first, rest := theirs[0], theirs[1..];
      var next := WithEntry(mine, first);
      assert theirs == [first] + rest;
      MergeOrder(next, rest, a, b);
      WithEntryIndex(mine, first, a);
      WithEntryIndex(mine, first, b);
      IndexAppend([first], rest, a);
      IndexAppend([first], rest, b);
    }
  }

  lemma WithEntryIndex(mine: seq<Entry>, entry: Entry, key: string)
    ensures IndexOf(WithEntry(mine, entry), key)
            == if Has(mine, key) then IndexOf(mine, key)
               else if key == entry.key then |mine| else |WithEntry(mine, entry)|
  {
    var i := IndexOf(mine, entry.key);
    var value := if i < |mine| then Merge(mine[i].value, entry.value) else entry.value;
    assert WithEntry(mine, entry) == Insert(mine, entry.key, value);
    InsertIndex(mine, entry.key, value, key);
  }

  /** Where two names stand in the fold. */
  lemma FoldedOrder(at: Place, tools: seq<Entry>, explicit: seq<Entry>, a: string, b: string)
    requires UniqueKeys(explicit) && a != b
    requires Has(Folded(at, tools, explicit), a) && Has(Folded(at, tools, explicit), b)
    ensures Before(Folded(at, tools, explicit), a, b) <==> FoldBefore(tools, explicit, a, b)
  {
    var rules, kept := Derived(at, false, explicit, tools).0, GuardedEntries(at.Child(PERMISSION).from, explicit).0;
    assert tools[..|tools|] == tools && explicit[..|explicit|] == explicit;
    DerivedOrder(at, explicit, tools, |tools|, a, b);
    GuardedOrder(at.Child(PERMISSION).from, explicit, |explicit|, a, b);
    IndexAppend(rules, kept, a);
    IndexAppend(rules, kept, b);
  }

  /** Where two names stand in the merge. */
  lemma OverlaidOrder(at: Place, tools: seq<Entry>, explicit: seq<Entry>, a: string, b: string)
    requires UniqueKeys(explicit) && a != b
    requires Has(Overlaid(at, tools, explicit), a) && Has(Overlaid(at, tools, explicit), b)
    ensures Before(Overlaid(at, tools, explicit), a, b) <==> MergeBefore(tools, explicit, a, b)
  {
    var mine := FromTools(tools);
    var all := MergeEntries(mine, explicit);
    assert tools[..|tools|] == tools && all[..|all|] == all;
    DerivedUnclaimed(ROOT, false, [], tools);
    MergedUnique(mine, explicit);
    DerivedOrder(ROOT, [], tools, |tools|, a, b);
    GuardedOrder(at.Child(PERMISSION).from, all, |all|, a, b);
    MergeOrder(mine, explicit, a, b);
  }

  // What decides a call.

  lemma {:induction false} RulesNameTheirTool(tool: string, json: Json, permission: string, pattern: string)
    requires Plain(tool) && Normalize(permission) != tool && RulesOfTool(tool, json).Some?
    ensures Decide(RulesOfTool(tool, json).value, permission, pattern) == None
  {
    var rules := RulesOfTool(tool, json).value;
    if json.Object? {
      PatternsNameTheirTool(tool, json.entries);
    }
    LiteralMatches(permission, tool);
    DecideNone(rules, permission, pattern);
  }

  lemma {:induction false} PatternsNameTheirTool(tool: string, patterns: seq<Entry>)
    requires RulesOfPatterns(tool, patterns).Some?
    ensures forall i :: 0 <= i < |RulesOfPatterns(tool, patterns).value| ==>
            RulesOfPatterns(tool, patterns).value[i].permission == tool
  {
    if patterns != [] {
      PatternsNameTheirTool(tool, patterns[1..]);
    }
  }

  /** What one entry's rules say of a call. */
  function DecidedBy(tool: string, rule: Option<Json>, permission: string, pattern: string): Option<Action> {
    if rule.None? || RulesOfTool(tool, rule.value).None? then None
    else Decide(RulesOfTool(tool, rule.value).value, permission, pattern)
  }

  predicate AnswersFor(entries: seq<Entry>, tool: string, permission: string, pattern: string) {
    DecidedBy(tool, Find(entries, tool), permission, pattern).Some?
  }

  /** Of the entries whose rules answer a call, the last. */
  ghost predicate LastAnswering(entries: seq<Entry>, tool: string, permission: string, pattern: string) {
    && AnswersFor(entries, tool, permission, pattern)
    && forall other :: other != tool && AnswersFor(entries, other, permission, pattern) ==> Before(entries, other, tool)
  }

  /** One entry more in front: it is looked at when none of the rest answers. */
  lemma OneEntryMore(first: Entry, rest: seq<Entry>, tool: string, permission: string, pattern: string)
    requires !Has(rest, first.key)
    ensures AnswersFor([first] + rest, tool, permission, pattern)
            <==> if tool == first.key then DecidedBy(tool, Some(first.value), permission, pattern).Some?
                 else AnswersFor(rest, tool, permission, pattern)
    ensures AnswersFor(rest, tool, permission, pattern) ==> tool != first.key
    ensures IndexOf([first] + rest, tool) == if tool == first.key then 0 else 1 + IndexOf(rest, tool)
    ensures Find([first] + rest, tool) == if tool == first.key then Some(first.value) else Find(rest, tool)
  {
    IndexAppend([first], rest, tool);
    FindAppend([first], rest, tool);
  }

  /** A call nothing answers is undecided; any other is decided by the last entry that answers it, and there is one. */
  lemma {:induction false} LastDecides(entries: seq<Entry>, permission: string, pattern: string)
    returns (last: Option<string>)
    requires UniqueKeys(entries) && RulesOfEntries(entries).Some?
    ensures last.None? ==> Decide(RulesOfEntries(entries).value, permission, pattern).None?
    ensures last.None? ==> forall tool :: !AnswersFor(entries, tool, permission, pattern)
    ensures last.Some? ==> LastAnswering(entries, last.value, permission, pattern)
    ensures last.Some? ==> Decide(RulesOfEntries(entries).value, permission, pattern)
                           == DecidedBy(last.value, Find(entries, last.value), permission, pattern)
  {
    if entries == [] {
      last := None;
    } else {
      var first, rest := entries[0], entries[1..];
      assert entries == [first] + rest;
      last := LastDecides(rest, permission, pattern);
      HasKeys(rest, first.key);
      DecideAppend(RulesOfTool(first.key, first.value).value, RulesOfEntries(rest).value, permission, pattern);
      forall tool ensures AnswersFor(entries, tool, permission, pattern)
          <==> if tool == first.key then DecidedBy(tool, Some(first.value), permission, pattern).Some?
               else AnswersFor(rest, tool, permission, pattern)
      {
        OneEntryMore(first, rest, tool, permission, pattern);
      }
      if last.Some? {
        FrontIsNotLast(first, rest, last.value, permission, pattern);
      } else if DecidedBy(first.key, Some(first.value), permission, pattern).Some? {
        last := Some(first.key);
        OneEntryMore(first, rest, first.key, permission, pattern);
      }
    }
  }

  lemma FrontIsNotLast(first: Entry, rest: seq<Entry>, last: string, permission: string, pattern: string)
    requires !Has(rest, first.key) && LastAnswering(rest, last, permission, pattern)
    ensures LastAnswering([first] + rest, last, permission, pattern) && Find([first] + rest, last) == Find(rest, last)
  {
    OneEntryMore(first, rest, last, permission, pattern);
    forall other | other != last && AnswersFor([first] + rest, other, permission, pattern)
      ensures Before([first] + rest, other, last)
    {
      OneEntryMore(first, rest, other, permission, pattern);
    }
  }

  /** Whether an entry is a tool's rule at all. */
  predicate IsRule(entry: Entry) {
    RulesOfTool(entry.key, entry.value).Some?
  }

  lemma {:induction false} RulesOfEach(entries: seq<Entry>)
    ensures RulesOfEntries(entries).Some? <==> forall i :: 0 <= i < |entries| ==> IsRule(entries[i])
  {
    if entries != [] {
      RulesOfEach(entries[1..]);
      assert entries == [entries[0]] + entries[1..];
      assert forall i :: 0 <= i < |entries[1..]| ==> entries[1..][i] == entries[i + 1];
      assert RulesOfEntries(entries).Some? ==> IsRule(entries[0]);
    }
  }

  lemma SameFindsSame(a: seq<Entry>, b: seq<Entry>)
    requires UniqueKeys(a) && UniqueKeys(b) && forall key :: Find(a, key) == Find(b, key)
    ensures forall i :: 0 <= i < |a| ==> a[i] in b
  {
    forall i | 0 <= i < |a| ensures a[i] in b {
      IndexOfUnique(a, i);
      assert Find(a, a[i].key) == Some(a[i].value) == Find(b, a[i].key);
      assert b[IndexOf(b, a[i].key)] == a[i];
    }
  }

  // When the two orders decide alike.

  lemma SameRules(at: Place, tools: seq<Entry>, explicit: seq<Entry>)
    requires UniqueKeys(explicit)
    ensures UniqueKeys(Folded(at, tools, explicit)) && UniqueKeys(Overlaid(at, tools, explicit))
    ensures RulesOfEntries(Folded(at, tools, explicit)).Some? <==> RulesOfEntries(Overlaid(at, tools, explicit)).Some?
  {
    var a, b := Folded(at, tools, explicit), Overlaid(at, tools, explicit);
    FoldedUnique(at, tools, explicit);
    forall key ensures Find(a, key) == Find(b, key) {
      BothHoldTheStated(at, tools, explicit, key);
    }
    SameFindsSame(a, b);
    SameFindsSame(b, a);
    RulesOfEach(a);
    RulesOfEach(b);
  }

  /** What is spelled for a tool, by either side, says of a call. */
  function SaysOf(tools: seq<Entry>, explicit: seq<Entry>, tool: string, permission: string,
                  pattern: string): Option<Action>
  {
    DecidedBy(tool, Stated(tools, explicit, tool), permission, pattern)
  }

  /** Of the tools whose spelled rules answer a call, the last by the places the fold gives them. */
  ghost predicate LastInFold(tools: seq<Entry>, explicit: seq<Entry>, tool: string, permission: string, pattern: string)
  {
    && SaysOf(tools, explicit, tool, permission, pattern).Some?
    && forall other :: other != tool && SaysOf(tools, explicit, other, permission, pattern).Some? ==>
         FoldBefore(tools, explicit, other, tool)
  }

  /** The last by the places the merge gives them. */
  ghost predicate LastInMerge(tools: seq<Entry>, explicit: seq<Entry>, tool: string, permission: string,
                              pattern: string)
  {
    && SaysOf(tools, explicit, tool, permission, pattern).Some?
    && forall other :: other != tool && SaysOf(tools, explicit, other, permission, pattern).Some? ==>
         MergeBefore(tools, explicit, other, tool)
  }

  ghost predicate DecideAlike(a: seq<Rule>, b: seq<Rule>) {
    forall permission, pattern :: Decide(a, permission, pattern) == Decide(b, permission, pattern)
  }

  lemma AnswersAsStated(at: Place, tools: seq<Entry>, explicit: seq<Entry>, permission: string, pattern: string)
    requires UniqueKeys(explicit)
    ensures forall tool :: AnswersFor(Folded(at, tools, explicit), tool, permission, pattern)
                           <==> SaysOf(tools, explicit, tool, permission, pattern).Some?
    ensures forall tool :: AnswersFor(Overlaid(at, tools, explicit), tool, permission, pattern)
                           <==> SaysOf(tools, explicit, tool, permission, pattern).Some?
  {
    forall tool ensures Find(Folded(at, tools, explicit), tool) == Stated(tools, explicit, tool)
      ensures Find(Overlaid(at, tools, explicit), tool) == Stated(tools, explicit, tool)
    {
      BothHoldTheStated(at, tools, explicit, tool);
    }
  }

  lemma LastAsSpelled(at: Place, tools: seq<Entry>, explicit: seq<Entry>, tool: string, permission: string,
                      pattern: string)
    requires UniqueKeys(explicit)
    ensures LastAnswering(Folded(at, tools, explicit), tool, permission, pattern)
            <==> LastInFold(tools, explicit, tool, permission, pattern)
    ensures LastAnswering(Overlaid(at, tools, explicit), tool, permission, pattern)
            <==> LastInMerge(tools, explicit, tool, permission, pattern)
  {
    AnswersAsStated(at, tools, explicit, permission, pattern);
    if SaysOf(tools, explicit, tool, permission, pattern).Some? {
      forall other | other != tool && SaysOf(tools, explicit, other, permission, pattern).Some?
        ensures Before(Folded(at, tools, explicit), other, tool) <==> FoldBefore(tools, explicit, other, tool)
        ensures Before(Overlaid(at, tools, explicit), other, tool) <==> MergeBefore(tools, explicit, other, tool)
      {
        BothHoldTheStated(at, tools, explicit, tool);
        BothHoldTheStated(at, tools, explicit, other);
        FoldedOrder(at, tools, explicit, other, tool);
        OverlaidOrder(at, tools, explicit, other, tool);
      }
    }
  }

  /** One call: undecided by both, or decided in each by the last tool that answers it there. */
  lemma OneCall(at: Place, tools: seq<Entry>, explicit: seq<Entry>, permission: string, pattern: string)
    returns (fold: Option<string>, merge: Option<string>)
    requires UniqueKeys(explicit)
    requires RulesOfEntries(Folded(at, tools, explicit)).Some? && RulesOfEntries(Overlaid(at, tools, explicit)).Some?
    ensures fold.Some? <==> merge.Some?
    ensures fold.None? ==> forall tool :: SaysOf(tools, explicit, tool, permission, pattern).None?
    ensures fold.Some? ==> LastInFold(tools, explicit, fold.value, permission, pattern)
    ensures merge.Some? ==> LastInMerge(tools, explicit, merge.value, permission, pattern)
    ensures Decide(RulesOfEntries(Folded(at, tools, explicit)).value, permission, pattern)
            == if fold.Some? then SaysOf(tools, explicit, fold.value, permission, pattern) else None
    ensures Decide(RulesOfEntries(Overlaid(at, tools, explicit)).value, permission, pattern)
            == if merge.Some? then SaysOf(tools, explicit, merge.value, permission, pattern) else None
  {
    SameRules(at, tools, explicit);
    AnswersAsStated(at, tools, explicit, permission, pattern);
    fold := LastDecides(Folded(at, tools, explicit), permission, pattern);
    merge := LastDecides(Overlaid(at, tools, explicit), permission, pattern);
    if fold.Some? {
      LastAsSpelled(at, tools, explicit, fold.value, permission, pattern);
      BothHoldTheStated(at, tools, explicit, fold.value);
    }
    if merge.Some? {
      LastAsSpelled(at, tools, explicit, merge.value, permission, pattern);
      BothHoldTheStated(at, tools, explicit, merge.value);
    }
  }

  /** There is one last at most, so two that are last for one call are one tool. */
  lemma OneLast(at: Place, tools: seq<Entry>, explicit: seq<Entry>, x: string, y: string, permission: string,
                pattern: string)
    requires UniqueKeys(explicit)
    ensures LastInFold(tools, explicit, x, permission, pattern) ==>
              LastInFold(tools, explicit, y, permission, pattern) ==> x == y
    ensures LastInMerge(tools, explicit, x, permission, pattern) ==>
              LastInMerge(tools, explicit, y, permission, pattern) ==> x == y
  {
    LastAsSpelled(at, tools, explicit, x, permission, pattern);
    LastAsSpelled(at, tools, explicit, y, permission, pattern);
  }

  /**
   * Whatever call is put, the tool that comes last for it in the fold and the one that does in the merge say
   * the same.
   */
  ghost predicate LastsAgree(tools: seq<Entry>, explicit: seq<Entry>) {
    forall x, y, permission, pattern ::
      LastInFold(tools, explicit, x, permission, pattern) && LastInMerge(tools, explicit, y, permission, pattern) ==>
      SaysOf(tools, explicit, x, permission, pattern) == SaysOf(tools, explicit, y, permission, pattern)
  }

  /**
   * The fold decides every call as the merge does exactly when, for each, the last tool to answer it by the
   * places the fold gives and the last by the places the merge gives say the same, whatever the names are.
   */
  lemma FoldDecidesAlikeExactly(at: Place, tools: seq<Entry>, explicit: seq<Entry>)
    requires UniqueKeys(explicit)
    ensures RulesOfEntries(Folded(at, tools, explicit)).Some? <==> RulesOfEntries(Overlaid(at, tools, explicit)).Some?
    ensures RulesOfEntries(Folded(at, tools, explicit)).Some? ==>
              (DecideAlike(RulesOfEntries(Folded(at, tools, explicit)).value,
                           RulesOfEntries(Overlaid(at, tools, explicit)).value)
               <==> LastsAgree(tools, explicit))
  {
    SameRules(at, tools, explicit);
    if RulesOfEntries(Folded(at, tools, explicit)).Some? {
      var a, b := RulesOfEntries(Folded(at, tools, explicit)).value,
        RulesOfEntries(Overlaid(at, tools, explicit)).value;
      if DecideAlike(a, b) {
        forall x, y, permission, pattern
          | LastInFold(tools, explicit, x, permission, pattern) && LastInMerge(tools, explicit, y, permission, pattern)
          ensures SaysOf(tools, explicit, x, permission, pattern) == SaysOf(tools, explicit, y, permission, pattern)
        {
          var fold, merge := OneCall(at, tools, explicit, permission, pattern);
          OneLast(at, tools, explicit, x, fold.value, permission, pattern);
          OneLast(at, tools, explicit, y, merge.value, permission, pattern);
          assert Decide(a, permission, pattern) == Decide(b, permission, pattern);
        }
      }
      if LastsAgree(tools, explicit) {
        forall permission, pattern ensures Decide(a, permission, pattern) == Decide(b, permission, pattern) {
          var fold, merge := OneCall(at, tools, explicit, permission, pattern);
        }
      }
    }
  }

  // The case of literal names and `*`.

  /** A name as a rule spells it: one tool's, or every tool's. */
  predicate Name(name: string) {
    Plain(name) || name == ANY
  }

  /** Every tool asked for, by either side, is a literal name or `*`. */
  predicate SpelledNames(tools: seq<Entry>, explicit: seq<Entry>) {
    && (forall i :: 0 <= i < |tools| && tools[i].value.Bool? ==> Name(ToolNamed(tools[i].key)))
    && forall i :: 0 <= i < |explicit| ==> Name(explicit[i].key)
  }

  /** Some call of the tool is answered one way by the tool's own rules and another way by the `*`'s. */
  ghost predicate Clashes(tools: seq<Entry>, explicit: seq<Entry>, tool: string) {
    exists pattern :: ClashesOn(tools, explicit, tool, pattern)
  }

  predicate ClashesOn(tools: seq<Entry>, explicit: seq<Entry>, tool: string, pattern: string) {
    var own, star := SaysOf(tools, explicit, tool, tool, pattern), SaysOf(tools, explicit, ANY, tool, pattern);
    own.Some? && star.Some? && own != star
  }

  /** The tool stands on one side of `*`, the same in the fold as in the merge. */
  predicate SameSide(tools: seq<Entry>, explicit: seq<Entry>, tool: string) {
    FoldBefore(tools, explicit, tool, ANY) <==> MergeBefore(tools, explicit, tool, ANY)
  }

  lemma StatedIsNamed(tools: seq<Entry>, explicit: seq<Entry>, tool: string)
    requires SpelledNames(tools, explicit) && Stated(tools, explicit, tool).Some?
    ensures Name(tool)
  {
    if Has(explicit, tool) {
      assert explicit[IndexOf(explicit, tool)].key == tool;
    } else {
      FlagIsNamed(tools, tool);
    }
  }

  lemma {:induction false} FlagIsNamed(tools: seq<Entry>, tool: string)
    requires LastFlag(tools, tool).Some?
    ensures exists i :: 0 <= i < |tools| && tools[i].value.Bool? && ToolNamed(tools[i].key) == tool
  {
    var n := |tools| - 1;
    if !(tools[n].value.Bool? && ToolNamed(tools[n].key) == tool) {
      FlagIsNamed(tools[..n], tool);
      var i :| 0 <= i < n && tools[..n][i].value.Bool? && ToolNamed(tools[..n][i].key) == tool;
      assert tools[i] == tools[..n][i];
    }
  }

  lemma {:induction false} NormalRules(rules: seq<Rule>, permission: string, pattern: string)
    ensures Decide(rules, permission, pattern) == Decide(rules, Normalize(permission), pattern)
  {
    if rules != [] {
      assert Normalize(Normalize(permission)) == Normalize(permission);
      NormalRules(rules[..|rules| - 1], permission, pattern);
    }
  }

  lemma NormalSays(tools: seq<Entry>, explicit: seq<Entry>, tool: string, permission: string, pattern: string)
    ensures SaysOf(tools, explicit, tool, permission, pattern)
            == SaysOf(tools, explicit, tool, Normalize(permission), pattern)
  {
    var rule := Stated(tools, explicit, tool);
    if rule.Some? && RulesOfTool(tool, rule.value).Some? {
      NormalRules(RulesOfTool(tool, rule.value).value, permission, pattern);
    }
  }

  /** Only the tool itself and the `*` answer for it. */
  lemma OwnOrStar(tools: seq<Entry>, explicit: seq<Entry>, name: string, permission: string, pattern: string)
    requires SpelledNames(tools, explicit) && SaysOf(tools, explicit, name, permission, pattern).Some?
    ensures name == Normalize(permission) || name == ANY
    ensures name != ANY ==> Plain(name)
  {
    StatedIsNamed(tools, explicit, name);
    if name != ANY && name != Normalize(permission) {
      RulesNameTheirTool(name, Stated(tools, explicit, name).value, permission, pattern);
    }
  }

  /** Of two names both sides hold, one comes first. */
  lemma OneComesFirst(at: Place, tools: seq<Entry>, explicit: seq<Entry>, a: string, b: string)
    requires UniqueKeys(explicit) && a != b
    requires Stated(tools, explicit, a).Some? && Stated(tools, explicit, b).Some?
    ensures FoldBefore(tools, explicit, a, b) <==> !FoldBefore(tools, explicit, b, a)
    ensures MergeBefore(tools, explicit, a, b) <==> !MergeBefore(tools, explicit, b, a)
  {
    BothHoldTheStated(at, tools, explicit, a);
    BothHoldTheStated(at, tools, explicit, b);
    FoldedOrder(at, tools, explicit, a, b);
    FoldedOrder(at, tools, explicit, b, a);
    OverlaidOrder(at, tools, explicit, a, b);
    OverlaidOrder(at, tools, explicit, b, a);
  }

  lemma ClashingLasts(at: Place, tools: seq<Entry>, explicit: seq<Entry>, tool: string, pattern: string)
    requires UniqueKeys(explicit) && SpelledNames(tools, explicit) && Plain(tool) && LastsAgree(tools, explicit)
    requires ClashesOn(tools, explicit, tool, pattern)
    ensures SameSide(tools, explicit, tool)
  {
    OneComesFirst(at, tools, explicit, tool, ANY);
    forall other | SaysOf(tools, explicit, other, tool, pattern).Some? ensures other == tool || other == ANY {
      OwnOrStar(tools, explicit, other, tool, pattern);
    }
    var fold := if FoldBefore(tools, explicit, tool, ANY) then ANY else tool;
    var merge := if MergeBefore(tools, explicit, tool, ANY) then ANY else tool;
    assert LastInFold(tools, explicit, fold, tool, pattern) && LastInMerge(tools, explicit, merge, tool, pattern);
  }

  lemma SameSidesAgree(at: Place, tools: seq<Entry>, explicit: seq<Entry>, x: string, y: string, permission: string,
                       pattern: string)
    requires UniqueKeys(explicit) && SpelledNames(tools, explicit)
    requires forall tool :: Plain(tool) && Clashes(tools, explicit, tool) ==> SameSide(tools, explicit, tool)
    requires LastInFold(tools, explicit, x, permission, pattern) && LastInMerge(tools, explicit, y, permission, pattern)
    ensures SaysOf(tools, explicit, x, permission, pattern) == SaysOf(tools, explicit, y, permission, pattern)
  {
    var tool := Normalize(permission);
    OwnOrStar(tools, explicit, x, permission, pattern);
    OwnOrStar(tools, explicit, y, permission, pattern);
    NormalSays(tools, explicit, tool, permission, pattern);
    NormalSays(tools, explicit, ANY, permission, pattern);
    if x != y {
      OneComesFirst(at, tools, explicit, tool, ANY);
      assert !SameSide(tools, explicit, tool);
      assert !ClashesOn(tools, explicit, tool, pattern);
    }
  }

  /**
   * Where every name is literal or `*`: exactly when each tool whose rules clash with the `*`'s stands on the
   * same side of the `*` in both.
   */
  lemma NamesDecideAlikeExactly(at: Place, tools: seq<Entry>, explicit: seq<Entry>)
    requires UniqueKeys(explicit) && SpelledNames(tools, explicit) && RulesOfEntries(Folded(at, tools, explicit)).Some?
    ensures RulesOfEntries(Overlaid(at, tools, explicit)).Some?
    ensures DecideAlike(RulesOfEntries(Folded(at, tools, explicit)).value,
                        RulesOfEntries(Overlaid(at, tools, explicit)).value)
            <==> forall tool :: Plain(tool) && Clashes(tools, explicit, tool) ==> SameSide(tools, explicit, tool)
  {
    FoldDecidesAlikeExactly(at, tools, explicit);
    if LastsAgree(tools, explicit) {
      forall tool | Plain(tool) && Clashes(tools, explicit, tool) ensures SameSide(tools, explicit, tool) {
        var pattern :| ClashesOn(tools, explicit, tool, pattern);
        ClashingLasts(at, tools, explicit, tool, pattern);
      }
    }
    if forall tool :: Plain(tool) && Clashes(tools, explicit, tool) ==> SameSide(tools, explicit, tool) {
      forall x, y, permission, pattern
        | LastInFold(tools, explicit, x, permission, pattern) && LastInMerge(tools, explicit, y, permission, pattern)
        ensures SaysOf(tools, explicit, x, permission, pattern) == SaysOf(tools, explicit, y, permission, pattern)
      {
        SameSidesAgree(at, tools, explicit, x, y, permission, pattern);
      }
    }
  }

  /** Of words, two clash exactly when they are different actions. */
  lemma WordsClash(tools: seq<Entry>, explicit: seq<Entry>, tool: string)
    requires Plain(tool) && Stated(tools, explicit, tool).Some? && Stated(tools, explicit, ANY).Some?
    requires Stated(tools, explicit, tool).value.Str? && Stated(tools, explicit, ANY).value.Str?
    ensures Clashes(tools, explicit, tool)
            <==> ActionOf(Stated(tools, explicit, tool).value.text) != ActionOf(Stated(tools, explicit, ANY).value.text)
  {
    var own, star := Stated(tools, explicit, tool), Stated(tools, explicit, ANY);
    forall pattern: string
      ensures DecidedBy(tool, own, tool, pattern) == Some(ActionOf(own.value.text))
      ensures DecidedBy(ANY, star, tool, pattern) == Some(ActionOf(star.value.text))
    {
      WordDecides(tool, own.value.text, tool, pattern);
      WordDecides(ANY, star.value.text, tool, pattern);
    }
    assert ClashesOn(tools, explicit, tool, "") <==> ActionOf(own.value.text) != ActionOf(star.value.text);
  }

  lemma WordDecides(name: string, word: string, tool: string, pattern: string)
    requires Plain(tool) && (name == tool || name == ANY)
    ensures DecidedBy(name, Some(Str(word)), tool, pattern) == Some(ActionOf(word))
  {
    var rules := [Rule(name, ANY, ActionOf(word))];
    AnyMatches(tool);
    AnyMatches(pattern);
    LiteralMatches(tool, tool);
    assert RulesOfTool(name, Str(word)) == Some(rules) && rules[|rules| - 1] == rules[0];
  }

  /** Every rule spelled is a word. */
  ghost predicate Words(tools: seq<Entry>, explicit: seq<Entry>) {
    forall tool :: Stated(tools, explicit, tool).Some? ==> Stated(tools, explicit, tool).value.Str?
  }

  /** The tool's word and the `*`'s are different actions. */
  predicate DifferentWords(tools: seq<Entry>, explicit: seq<Entry>, tool: string) {
    var own, star := Stated(tools, explicit, tool), Stated(tools, explicit, ANY);
    own.Some? && star.Some? && own.value.Str? && star.value.Str?
      && ActionOf(own.value.text) != ActionOf(star.value.text)
  }

  /** Of words alone: exactly when each tool whose action is not the `*`'s stands on the same side of it in both. */
  lemma WordsDecideAlikeExactly(at: Place, tools: seq<Entry>, explicit: seq<Entry>)
    requires UniqueKeys(explicit) && SpelledNames(tools, explicit) && Words(tools, explicit)
    ensures RulesOfEntries(Folded(at, tools, explicit)).Some? && RulesOfEntries(Overlaid(at, tools, explicit)).Some?
    ensures DecideAlike(RulesOfEntries(Folded(at, tools, explicit)).value,
                        RulesOfEntries(Overlaid(at, tools, explicit)).value)
            <==> forall tool :: Plain(tool) && DifferentWords(tools, explicit, tool) ==> SameSide(tools, explicit, tool)
  {
    var all := Folded(at, tools, explicit);
    SameRules(at, tools, explicit);
    forall i | 0 <= i < |all| ensures IsRule(all[i]) {
      IndexOfUnique(all, i);
      BothHoldTheStated(at, tools, explicit, all[i].key);
    }
    RulesOfEach(all);
    NamesDecideAlikeExactly(at, tools, explicit);
    forall tool | Plain(tool) ensures Clashes(tools, explicit, tool) <==> DifferentWords(tools, explicit, tool) {
      if Stated(tools, explicit, tool).Some? && Stated(tools, explicit, ANY).Some? {
        WordsClash(tools, explicit, tool);
      }
    }
  }

  /** For literal tool names the fold decides every call as the merge does, whatever moved. */
  lemma FoldDecidesAlike(at: Place, tools: seq<Entry>, explicit: seq<Entry>)
    requires UniqueKeys(explicit) && SpelledNames(tools, explicit)
    requires !Has(explicit, ANY) && ToolAt(tools, ANY) == |tools|
    requires RulesOfEntries(Folded(at, tools, explicit)).Some?
    ensures RulesOfEntries(Overlaid(at, tools, explicit)).Some?
    ensures DecideAlike(RulesOfEntries(Folded(at, tools, explicit)).value,
                        RulesOfEntries(Overlaid(at, tools, explicit)).value)
  {
    NamesDecideAlikeExactly(at, tools, explicit);
    forall tool ensures !Clashes(tools, explicit, tool) {
      if LastFlag(tools, ANY).Some? {
        FlagIsNamed(tools, ANY);
        assert false;
      }
    }
  }

  // Where they differ.

  /**
   * Any name that covers a tool, put beside it, can decide otherwise: the fold leaves the tool's rule after
   * the covering one, where it was spelled, and the merge moves it before.
   */
  lemma FoldCanDiffer(at: Place, tool: string, cover: string, pattern: string)
    requires Plain(tool) && ToolNamed(tool) == tool && cover != tool && Matches(tool, cover)
    ensures var tools := [Entry(tool, Bool(true))];
            var explicit := [Entry(cover, Str("deny")), Entry(tool, Str("allow"))];
            && RulesOfEntries(Folded(at, tools, explicit)).Some? && RulesOfEntries(Overlaid(at, tools, explicit)).Some?
            && Decide(RulesOfEntries(Folded(at, tools, explicit)).value, tool, pattern) == Some(Allow)
            && Decide(RulesOfEntries(Overlaid(at, tools, explicit)).value, tool, pattern) == Some(Deny)
  {
    var other, own := Entry(cover, Str("deny")), Entry(tool, Str("allow"));
    NoTokenIn("deny");
    NoTokenIn("allow");
    ClaimedKeepsItsPlace(at, other, own);
    MergedMovesFirst(at, other, own);
    AnyMatches(pattern);
    LiteralMatches(tool, tool);
    TwoRules(other, own, tool, pattern);
    TwoRules(own, other, tool, pattern);
    ActionWords();
  }

  const SHELL := "bash"
  const MCP_TOOL := "mcp__a"
  const MCP_GLOB := "mcp__" + ANY

  lemma NotRenamed()
    ensures ANY != SHELL && ToolNamed(SHELL) == SHELL && Plain(SHELL)
    ensures MCP_GLOB != MCP_TOOL && ToolNamed(MCP_TOOL) == MCP_TOOL && Plain(MCP_TOOL) && Matches(MCP_TOOL, MCP_GLOB)
  {
    assert |SHELL| == 4 && |MCP_TOOL| == 6 && |"write"| == 5 && |"patch"| == 5 && SHELL[0] == 'b' && EDIT[0] == 'e'
        && |ANY| == 1;
    assert Normalize(SHELL) == SHELL && Normalize(MCP_TOOL) == MCP_TOOL && Normalize("mcp__") == "mcp__";
    assert MCP_TOOL[5] == 'a' && MCP_GLOB[5] == '*';
    PrefixMatches(MCP_TOOL, "mcp__");
  }

  /** A `*` is such a name. */
  lemma FoldCanDifferUnderAStar(at: Place)
    ensures var tools := [Entry(SHELL, Bool(true))];
            var explicit := [Entry(ANY, Str("deny")), Entry(SHELL, Str("allow"))];
            && RulesOfEntries(Folded(at, tools, explicit)).Some? && RulesOfEntries(Overlaid(at, tools, explicit)).Some?
            && Decide(RulesOfEntries(Folded(at, tools, explicit)).value, SHELL, "ls") == Some(Allow)
            && Decide(RulesOfEntries(Overlaid(at, tools, explicit)).value, SHELL, "ls") == Some(Deny)
  {
    NotRenamed();
    AnyMatches(SHELL);
    FoldCanDiffer(at, SHELL, ANY, "ls");
  }

  /** So is the glob of an MCP server, with no `*` spelled at all. */
  lemma FoldCanDifferUnderAGlob(at: Place, pattern: string)
    ensures var tools := [Entry(MCP_TOOL, Bool(true))];
            var explicit := [Entry(MCP_GLOB, Str("deny")), Entry(MCP_TOOL, Str("allow"))];
            && RulesOfEntries(Folded(at, tools, explicit)).Some? && RulesOfEntries(Overlaid(at, tools, explicit)).Some?
            && Decide(RulesOfEntries(Folded(at, tools, explicit)).value, MCP_TOOL, pattern) == Some(Allow)
            && Decide(RulesOfEntries(Overlaid(at, tools, explicit)).value, MCP_TOOL, pattern) == Some(Deny)
  {
    NotRenamed();
    FoldCanDiffer(at, MCP_TOOL, MCP_GLOB, pattern);
  }

  lemma ClaimedKeepsItsPlace(at: Place, other: Entry, tool: Entry)
    requires tool.value == Spelled(true) && other.value.Str? && Guard(other.value.text) == Some(other.value.text)
    requires other.key != tool.key && ToolNamed(tool.key) == tool.key && Guard(tool.value.text) == Some(tool.value.text)
    ensures Folded(at, [Entry(tool.key, Bool(true))], [other, tool]) == [other, tool]
  {
    var tools := [Entry(tool.key, Bool(true))];
    HasKeys([other, tool], tool.key);
    assert [other, tool][1].key == tool.key;
    assert tools[..0] == [];
    assert Derived(at, false, [other, tool], tools).0 == [];
    GuardedPair(at.Child(PERMISSION).from, other, tool);
  }

  lemma MergedMovesFirst(at: Place, other: Entry, tool: Entry)
    requires tool.value == Spelled(true) && other.value.Str? && Guard(other.value.text) == Some(other.value.text)
    requires other.key != tool.key && ToolNamed(tool.key) == tool.key && Guard(tool.value.text) == Some(tool.value.text)
    ensures Overlaid(at, [Entry(tool.key, Bool(true))], [other, tool]) == [tool, other]
  {
    var tools, both := [Entry(tool.key, Bool(true))], [other, tool];
    assert tools[..0] == [] && FromTools([]) == [];
    assert FromTools(tools) == [tool];
    assert both[1..] == [tool] && [tool][1..] == [] && [tool] + [other] == [tool, other];
    assert IndexOf([tool], other.key) == 1;
    assert IndexOf([tool, other], tool.key) == 0;
    assert [tool, other][0 := tool] == [tool, other];
    assert MergeEntries([tool, other], [tool]) == MergeEntries([tool, other], []);
    GuardedPair(at.Child(PERMISSION).from, tool, other);
  }

  lemma GuardedPair(from: Path, a: Entry, b: Entry)
    requires a.value.Str? && b.value.Str? && Guard(a.value.text) == Some(a.value.text)
             && Guard(b.value.text) == Some(b.value.text)
    ensures GuardedEntries(from, [a, b]).0 == [a, b]
  {
    assert [a, b][..1] == [a] && [a][..0] == [] && GuardedEntries(from, []) == ([], []);
    assert GuardedEntries(from, [a]).0 == [a];
  }

  function AnyRule(entry: Entry): Rule
    requires entry.value.Str?
  {
    Rule(entry.key, ANY, ActionOf(entry.value.text))
  }

  lemma TwoRules(a: Entry, b: Entry, permission: string, pattern: string)
    requires a.value.Str? && b.value.Str?
    ensures RulesOfEntries([a, b]) == Some([AnyRule(a), AnyRule(b)])
    ensures Answers(AnyRule(b), permission, pattern) ==>
              Decide([AnyRule(a), AnyRule(b)], permission, pattern) == Some(ActionOf(b.value.text))
  {
    var rules := [AnyRule(a), AnyRule(b)];
    assert [a, b][1..] == [b] && [b][1..] == [] && RulesOfEntries([]) == Some([]);
    assert RulesOfTool(a.key, a.value) == Some([AnyRule(a)]) && RulesOfTool(b.key, b.value) == Some([AnyRule(b)]);
    assert RulesOfEntries([b]) == Some([AnyRule(b)] + []);
    var both := [a, b];
    assert both[0] == a && both[1..] == [b];
    assert RulesOfEntries(both).value == [AnyRule(a)] + [AnyRule(b)] == rules;
    assert rules[|rules| - 1] == AnyRule(b);
  }
}
