/** The import as it runs: loops over a config's keys that write report rows and fill slots as they go. */
module ImportRun {
  import opened Lists
  import opened Optional
  import opened JsonTree
  import opened Numbers
  import opened Toml
  import opened Tokens
  import opened DeepMerge
  import opened Landing
  import opened Accounts
  import opened Guarding
  import opened PermissionFold
  import opened Walks
  import opened Fields
  import opened Entries
  import opened Services
  import opened Import

  class Report {
    var rows: seq<Row>

    constructor ()
      ensures rows == []
    {
      rows := [];
    }

    method Map(from: Path, to: Path)
      modifies this
      ensures rows == old(rows) + [Mapped(from, to)]
    {
      rows := rows + [Mapped(from, to)];
    }

    method Skip(from: Path, reason: Reason)
      modifies this
      ensures rows == old(rows) + [Skipped(from, reason)]
    {
      rows := rows + [Skipped(from, reason)];
    }

    method Adopt(other: Report)
      modifies this
      ensures rows == old(rows) + old(other.rows)
    {
      rows := rows + other.rows;
    }

    method AdoptCredentials(other: Report)
      requires other != this
      modifies this
      ensures rows == old(rows) + Credentials(other.rows)
    {
      for n := 0 to |other.rows|
        invariant rows == old(rows) + Credentials(other.rows[..n])
      {
        assert other.rows[..n + 1][..n] == other.rows[..n];
        var row := other.rows[n];
        if row.Skipped? && row.reason == Credential {
          rows := rows + [row];
        }
      }
      assert other.rows[..|other.rows|] == other.rows;
    }

    /** A refusal leaves its own row and the keys that never travel; otherwise everything collected stands. */
    method Settle(at: Place, refused: Option<Reason>, collected: Report, document: Json) returns (carried: Option<Json>)
      requires collected != this
      modifies this
      ensures rows == old(rows) + Settled(at, refused, collected.rows, document).rows
      ensures carried == Settled(at, refused, collected.rows, document).value
    {
      if refused.Some? {
        Skip(at.from, refused.value);
        AdoptCredentials(collected);
        return None;
      }
      Adopt(collected);
      return Some(document);
    }
  }

  // One value.

  method GuardText(report: Report, from: Path, text: string) returns (kept: Option<string>)
    modifies report
    ensures kept == Guard(text)
    ensures report.rows == old(report.rows) + if kept.None? then [Skipped(from, OnlyAToken)] else []
  {
    kept := None;
    var found := FindTokens(text);
    if |found| == 1 && Trim(text) == text[found[0].open..found[0].end] {
      report.Skip(from, OnlyAToken);
      return;
    }
    kept := Some(text);
  }

  method ReadText(report: Report, at: Place, value: Json) returns (kept: Option<Json>)
    modifies report
    ensures Carried(kept, report.rows) == Carried(Text(at, value).value, old(report.rows) + Text(at, value).rows)
  {
    if !value.Str? {
      report.Skip(at.from, Malformed);
      return None;
    }
    var text := GuardText(report, at.from, value.text);
    if text.None? {
      return None;
    }
    report.Map(at.from, at.to);
    return Some(Str(text.value));
  }

  method ReadFlag(report: Report, at: Place, value: Json) returns (kept: Option<Json>)
    modifies report
    ensures Carried(kept, report.rows) == Carried(Flag(at, value).value, old(report.rows) + Flag(at, value).rows)
  {
    if !value.Bool? {
      report.Skip(at.from, Malformed);
      return None;
    }
    report.Map(at.from, at.to);
    return Some(value);
  }

  method ReadMode(report: Report, at: Place, value: Json) returns (kept: Option<Json>)
    modifies report
    ensures Carried(kept, report.rows)
            == Carried(ModeNamed(at, value).value, old(report.rows) + ModeNamed(at, value).rows)
  {
    if !value.Str? || value.text !in MODES {
      report.Skip(at.from, Malformed);
      return None;
    }
    report.Map(at.from, at.to);
    return Some(value);
  }

  method ReadPositive(report: Report, at: Place, value: Json) returns (kept: Option<Json>)
    modifies report
    ensures Carried(kept, report.rows)
            == Carried(Positive(at, value).value, old(report.rows) + Positive(at, value).rows)
  {
    if value.Number? {
      var parsed := ParseWhole(value.spelled);
      if parsed.Some? && parsed.value > 0 {
        report.Map(at.from, at.to);
        return Some(value);
      }
    }
    report.Skip(at.from, Malformed);
    return None;
  }

  method ReadTextMap(report: Report, at: Place, value: Json) returns (kept: Option<Json>)
    modifies report
    ensures Carried(kept, report.rows) == Carried(TextMap(at, value).value, old(report.rows) + TextMap(at, value).rows)
  {
    if !value.Object? {
      report.Skip(at.from, Malformed);
      return None;
    }
    var entries, carried := value.entries, [];
    for n := 0 to |entries|
      invariant carried == KeptTexts(at, entries[..n]).0
      invariant report.rows == old(report.rows) + KeptTexts(at, entries[..n]).1
    {
      assert entries[..n + 1][..n] == entries[..n];
      var child := at.Child(entries[n].key);
      Regroup(old(report.rows), KeptTexts(at, entries[..n]).1, [Skipped(child.from, Malformed)]);
      Regroup(old(report.rows), KeptTexts(at, entries[..n]).1, [Skipped(child.from, OnlyAToken)]);
      if !entries[n].value.Str? {
        report.Skip(child.from, Malformed);
        continue;
      }
      var text := GuardText(report, child.from, entries[n].value.text);
      if text.Some? {
        carried := Insert(carried, entries[n].key, Str(text.value));
      }
    }
    assert entries[..|entries|] == entries;
    Regroup(old(report.rows), KeptTexts(at, entries).1, [Mapped(at.from, at.to)]);
    report.Map(at.from, at.to);
    return Some(Object(carried));
  }

  method ReadTexts(report: Report, at: Place, value: Json) returns (kept: Option<Json>, refused: Option<Reason>)
    modifies report
    ensures Tried(kept, report.rows, refused)
            == Tried(Texts(at, value).value, old(report.rows) + Texts(at, value).rows, Texts(at, value).refused)
  {
    if !value.Array? {
      return None, Some(Malformed);
    }
    var carried;
    carried, refused := ReadEach(report, at, value.elements);
    if refused.Some? {
      return None, refused;
    }
    report.Map(at.from, at.to);
    return Some(Array(carried)), None;
  }

  /** The elements one by one, up to the first that cannot be carried. */
  method ReadEach(report: Report, at: Place, elements: seq<Json>) returns (carried: seq<Json>, refused: Option<Reason>)
    modifies report
    ensures var bad := FirstBad(elements, 0);
            && refused == (if bad.None? then None else Some(bad.value.1)) && (bad.None? ==> carried == elements)
            && report.rows == old(report.rows)
               + if bad.Some? && bad.value.1 == OnlyAToken then [Skipped(at.Item(bad.value.0).from, OnlyAToken)] else []
  {
    carried, refused := [], None;
    for n := 0 to |elements|
      invariant carried == elements[..n] && report.rows == old(report.rows) && refused.None?
      invariant FirstBad(elements, n) == FirstBad(elements, 0)
    {
      FirstBadHere(elements, n);
      assert elements[..n + 1] == elements[..n] + [elements[n]];
      if !elements[n].Str? {
        return carried, Some(Malformed);
      }
      var text := GuardText(report, at.Item(n).from, elements[n].text);
      if text.None? {
        return carried, Some(OnlyAToken);
      }
      assert Str(text.value) == elements[n];
      carried := carried + [Str(text.value)];
    }
    assert elements[..|elements|] == elements;
  }

  lemma FirstBadHere(elements: seq<Json>, n: nat)
    requires n < |elements|
    ensures var element := elements[n];
            FirstBad(elements, n) == if !element.Str? then Some((n, Malformed))
                                     else if Guard(element.text).None? then Some((n, OnlyAToken))
                                     else FirstBad(elements, n + 1)
    ensures elements[n].Str? && Guard(elements[n].text).Some? ==> elements[n] == Str(Guard(elements[n].text).value)
  {
    if elements[n].Str? {
      GuardRefusesTokens(elements[n].text);
    }
  }

  method ReadProgram(report: Report, at: Place, value: Json) returns (kept: Option<Json>, refused: Option<Reason>)
    modifies report
    ensures Tried(kept, report.rows, refused)
            == Tried(Program(at, value).value, old(report.rows) + Program(at, value).rows, Program(at, value).refused)
  {
    kept, refused := ReadTexts(report, at, value);
    if kept == Some(Array([])) {
      return None, Some(Malformed);
    }
  }

  method ReadEndpoint(report: Report, build: Build, at: Place, value: Json)
    returns (kept: Option<Json>, refused: Option<Reason>)
    modifies report
    ensures var tried := Endpoint(at, value, build.reachable);
            Tried(kept, report.rows, refused) == Tried(tried.value, old(report.rows) + tried.rows, tried.refused)
  {
    if !value.Str? {
      return None, Some(Malformed);
    }
    var text := GuardText(report, at.from, value.text);
    if text.None? {
      return None, Some(OnlyAToken);
    }
    if !build.reachable(text.value) {
      return None, Some(Refused);
    }
    report.Map(at.from, at.to);
    return Some(Str(text.value)), None;
  }

  method ReadInstructions(report: Report, at: Place, value: Json) returns (kept: Option<Json>)
    modifies report
    ensures Carried(kept, report.rows)
            == Carried(Instructions(at, value).value, old(report.rows) + Instructions(at, value).rows)
  {
    if !value.Array? {
      report.Skip(at.from, Malformed);
      return None;
    }
    var elements, carried := value.elements, [];
    for n := 0 to |elements|
      invariant carried == KeptInstructions(at, elements[..n]).0
      invariant report.rows == old(report.rows) + KeptInstructions(at, elements[..n]).1
    {
      assert elements[..n + 1][..n] == elements[..n];
      var entry := at.Item(n);
      ghost var so := KeptInstructions(at, elements[..n]).1;
      Regroup(old(report.rows), so, [Skipped(entry.from, Malformed)]);
      Regroup(old(report.rows), so, [Skipped(entry.from, Unsupported)]);
      Regroup(old(report.rows), so, [Skipped(entry.from, OnlyAToken)]);
      if !elements[n].Str? {
        report.Skip(entry.from, Malformed);
        continue;
      }
      var text := elements[n].text;
      if HTTP <= text || HTTPS <= text {
        report.Skip(entry.from, Unsupported);
        continue;
      }
      var path := GuardText(report, entry.from, text);
      if path.Some? {
        carried := carried + [Str(path.value)];
      }
    }
    assert elements[..|elements|] == elements;
    if carried == [] {
      return None;
    }
    Regroup(old(report.rows), KeptInstructions(at, elements).1, [Mapped(at.from, at.to)]);
    report.Map(at.from, at.to);
    return Some(Array(carried));
  }

  method ReadGuarded(report: Report, from: Path, value: Json) returns (kept: Option<Json>)
    modifies report
    ensures Carried(kept, report.rows)
            == Carried(GuardedOf(from, value).value, old(report.rows) + GuardedOf(from, value).rows)
    decreases value
  {
    match value {
      case Null =>
        report.Skip(from, NullValue);
        return None;
      case Number(spelled) =>
        if NumberValue(spelled).None? {
          report.Skip(from, OutOfRange);
          return None;
        }
        return Some(value);
      case Str(text) =>
        var carried := GuardText(report, from, text);
        if carried.None? {
          return None;
        }
        return Some(Str(carried.value));
      case Object(entries) =>
        var carried := [];
        for n := 0 to |entries|
          invariant carried == GuardedEntries(from, entries[..n]).0
          invariant report.rows == old(report.rows) + GuardedEntries(from, entries[..n]).1
        {
          assert entries[..n + 1][..n] == entries[..n];
          var entry := ReadGuarded(report, from + [Key(entries[n].key)], entries[n].value);
          Regroup(old(report.rows), GuardedEntries(from, entries[..n]).1,
                  GuardedOf(from + [Key(entries[n].key)], entries[n].value).rows);
          if entry.Some? {
            carried := carried + [Entry(entries[n].key, entry.value)];
          }
        }
        assert entries[..|entries|] == entries;
        return Some(Object(carried));
      case Array(elements) =>
        var carried := [];
        for n := 0 to |elements|
          invariant carried == GuardedElements(from, elements[..n]).0
          invariant report.rows == old(report.rows) + GuardedElements(from, elements[..n]).1
        {
          assert elements[..n + 1][..n] == elements[..n];
          var element := ReadGuarded(report, from + [Index(n)], elements[n]);
          Regroup(old(report.rows), GuardedElements(from, elements[..n]).1,
                  GuardedOf(from + [Index(n)], elements[n]).rows);
          if element.Some? {
            carried := carried + [element.value];
          }
        }
        assert elements[..|elements|] == elements;
        return Some(Array(carried));
      case Bool(_) =>
        return Some(value);
    }
  }

  method ReadCarry(report: Report, at: Place, value: Json) returns (kept: Option<Json>)
    modifies report
    ensures Carried(kept, report.rows) == Carried(Carry(at, value).value, old(report.rows) + Carry(at, value).rows)
  {
    if !value.Object? {
      report.Skip(at.from, Malformed);
      return None;
    }
    kept := ReadGuarded(report, at.from, value);
    report.Map(at.from, at.to);
  }

  // The fold of `tools` and `permission`.

  method ReadTools(report: Report, at: Place, value: Json, explicit: Option<Json>) returns (rules: seq<Entry>)
    modifies report
    ensures rules == DerivedRules(at, Some(value), explicit).0
    ensures report.rows == old(report.rows) + DerivedRules(at, Some(value), explicit).1
  {
    rules := [];
    if !value.Object? {
      report.Skip(at.from + [Key(TOOLS)], Malformed);
      return;
    }
    var replaced, claimed := explicit.Some? && explicit.value.Str?, EntriesIn(explicit);
    var entries := value.entries;
    for n := 0 to |entries|
      invariant rules == Derived(at, replaced, claimed, entries[..n]).0
      invariant report.rows == old(report.rows) + Derived(at, replaced, claimed, entries[..n]).1
    {
      assert entries[..n + 1][..n] == entries[..n];
      var from := at.from + [Key(TOOLS), Key(entries[n].key)];
      ghost var before := Derived(at, replaced, claimed, entries[..n]).1;
      Regroup(old(report.rows), before, [Skipped(from, Malformed)]);
      Regroup(old(report.rows), before, [Skipped(from, Overridden)]);
      Regroup(old(report.rows), before,
              [Mapped(from, at.to + [Key(PERMISSION), Key(ToolNamed(entries[n].key))])]);
      if !entries[n].value.Bool? {
        report.Skip(from, Malformed);
        continue;
      }
      var tool := ToolNamed(entries[n].key);
      if replaced || Has(claimed, tool) {
        report.Skip(from, Overridden);
        continue;
      }
      report.Map(from, at.to + [Key(PERMISSION), Key(tool)]);
      rules := Insert(rules, tool, Spelled(entries[n].value.flag));
    }
    assert entries[..|entries|] == entries;
  }

  method ReadExplicit(report: Report, target: Place, derived: seq<Entry>, entries: seq<Entry>)
    returns (rules: seq<Entry>)
    modifies report
    ensures rules == Explicit(target, derived, entries).0
    ensures report.rows == old(report.rows) + Explicit(target, derived, entries).1
  {
    rules := derived;
    for n := 0 to |entries|
      invariant rules == Explicit(target, derived, entries[..n]).0
      invariant report.rows == old(report.rows) + Explicit(target, derived, entries[..n]).1
    {
      assert entries[..n + 1][..n] == entries[..n];
      var entry := target.Child(entries[n].key);
      var rule := ReadGuarded(report, entry.from, entries[n].value);
      ghost var so, more := Explicit(target, derived, entries[..n]).1, GuardedOf(entry.from, entries[n].value).rows;
      Regroup(old(report.rows), so, more);
      Regroup(old(report.rows), so + more, [Mapped(entry.from, entry.to)]);
      if rule.None? {
        continue;
      }
      report.Map(entry.from, entry.to);
      rules := Insert(rules, entries[n].key, rule.value);
    }
    assert entries[..|entries|] == entries;
  }

  method ReadPermission(report: Report, at: Place, tools: Option<Json>, explicit: Option<Json>)
    returns (kept: Option<Json>)
    modifies report
    ensures kept == PermissionOf(at, tools, explicit).value
    ensures report.rows == old(report.rows) + PermissionOf(at, tools, explicit).rows
  {
    var rules := [];
    if tools.Some? {
      rules := ReadTools(report, at, tools.value, explicit);
    }
    assert rules == DerivedRules(at, tools, explicit).0;
    assert report.rows == old(report.rows) + DerivedRules(at, tools, explicit).1;
    FoldSplits(at, tools, explicit);
    Regroup(old(report.rows), DerivedRules(at, tools, explicit).1, ExplicitRows(at, tools, explicit));
    if explicit.None? {
      return Unless(rules);
    }
    kept := ReadOver(report, at, tools, rules, explicit.value);
  }

  /** What is explicit, over the rules derived from `tools`. */
  method ReadOver(report: Report, at: Place, ghost tools: Option<Json>, rules: seq<Entry>, explicit: Json)
    returns (kept: Option<Json>)
    requires rules == DerivedRules(at, tools, Some(explicit)).0
    modifies report
    ensures kept == PermissionOf(at, tools, Some(explicit)).value
    ensures report.rows == old(report.rows) + ExplicitRows(at, tools, Some(explicit))
  {
    var target := at.Child(PERMISSION);
    match explicit {
      case Str(action) =>
        var text := GuardText(report, target.from, action);
        if text.None? {
          return None;
        }
        report.Map(target.from, target.to);
        return Some(Str(text.value));
      case Object(entries) =>
        var all := ReadExplicit(report, target, rules, entries);
        return Unless(all);
      case _ =>
        report.Skip(target.from, Malformed);
        return Unless(rules);
    }
  }

  // One entry.

  lemma WalkStep(field: Field, firstRefusal: bool, entries: seq<Entry>, n: nat)
    requires n < |entries|
    ensures Walk(field, firstRefusal, entries[..n + 1])
            == Then(Walk(field, firstRefusal, entries[..n]), field(entries[..n], entries[n]), firstRefusal)
  {
    assert entries[..n + 1][..n] == entries[..n];
  }

  /** Where a walk stands after `n` keys: the slots filled, the rows written since `so`, the refusal met. */
  ghost predicate Through(field: Field, firstRefusal: bool, entries: seq<Entry>, n: nat,
                          fields: map<string, Option<Json>>, so: seq<Row>, rows: seq<Row>, refused: Option<Reason>)
    requires n <= |entries|
  {
    var all := Walk(field, firstRefusal, entries[..n]);
    fields == all.writes && rows == so + all.rows && refused == all.refused
  }

  lemma ThroughNone(field: Field, firstRefusal: bool, entries: seq<Entry>, so: seq<Row>)
    ensures Through(field, firstRefusal, entries, 0, map[], so, so, None)
  {
    assert entries[..0] == [] && so + [] == so;
  }

  lemma ThroughNext(field: Field, firstRefusal: bool, entries: seq<Entry>, n: nat, fields: map<string, Option<Json>>,
                    so: seq<Row>, rows: seq<Row>, refused: Option<Reason>, effect: Effect)
    requires n < |entries| && Through(field, firstRefusal, entries, n, fields, so, rows, refused)
    requires effect == field(entries[..n], entries[n])
    ensures Through(field, firstRefusal, entries, n + 1, fields + effect.writes, so, rows + effect.rows,
                    if firstRefusal then Either(refused, effect.refused) else Either(effect.refused, refused))
  {
    WalkStep(field, firstRefusal, entries, n);
    var all := Walk(field, firstRefusal, entries[..n]);
    assert so + all.rows + effect.rows == so + (all.rows + effect.rows);
  }

  lemma ThroughAll(field: Field, firstRefusal: bool, entries: seq<Entry>, fields: map<string, Option<Json>>,
                   so: seq<Row>, rows: seq<Row>, refused: Option<Reason>)
    requires Through(field, firstRefusal, entries, |entries|, fields, so, rows, refused)
    ensures var all := Walk(field, firstRefusal, entries);
            fields == all.writes && rows == so + all.rows && refused == all.refused
  {
    assert entries[..|entries|] == entries;
  }

  function Assigned(fields: map<string, Option<Json>>, slot: Option<string>,
                    carried: Option<Json>): map<string, Option<Json>>
  {
    if slot.Some? then fields[slot.value := carried] else fields
  }

  lemma AssignedIs(fields: map<string, Option<Json>>, slot: Option<string>, carried: Option<Json>)
    ensures Assigned(fields, slot, carried) == fields + if slot.Some? then map[slot.value := carried] else map[]
  {}

  method ReadAgentKeys(report: Report, at: Place, value: Json, primary: bool)
    returns (fields: map<string, Option<Json>>)
    requires value.Object?
    modifies report
    ensures var all := Walk(AgentField(at, primary, value), false, value.entries);
            fields == all.writes && report.rows == old(report.rows) + all.rows
  {
    var entries: seq<Entry> := value.entries;
    ghost var field, so := AgentField(at, primary, value), report.rows;
    var folded := false;
    fields := map[];
    ThroughNone(field, false, entries, so);
    for n := 0 to |entries|
      invariant folded == FoldedAlready(entries[..n])
      invariant Through(field, false, entries, n, fields, so, report.rows, None)
    {
      FoldedLonger(entries, n);
      ghost var rows, effect := report.rows, field(entries[..n], entries[n]);
      var slot, carried := ReadAgentKey(report, at, primary, value, entries[..n], entries[n], folded);
      ThroughNext(field, false, entries, n, fields, so, rows, None, effect);
      AssignedIs(fields, slot, carried);
      fields := Assigned(fields, slot, carried);
      folded := folded || entries[n].key == PERMISSION || entries[n].key == TOOLS;
    }
    ThroughAll(field, false, entries, fields, so, report.rows, None);
  }

  method ReadAgent(report: Report, at: Place, value: Json, primary: bool) returns (kept: Option<Json>)
    modifies report
    ensures Carried(kept, report.rows)
            == Carried(AgentOf(at, value, primary).value, old(report.rows) + AgentOf(at, value, primary).rows)
  {
    if !value.Object? {
      report.Skip(at.from, Malformed);
      return None;
    }
    var fields := ReadAgentKeys(report, at, value, primary);
    if primary {
      report.Map(at.from, at.to + [Key(MODE)]);
      fields := fields[MODE := Some(Str(PRIMARY))];
    }
    return Unless(Present(AGENT_ORDER, fields));
  }

  /** One key of an agent: the slot it assigns, if it assigns one, and what it assigns there. */
  method ReadAgentKey(report: Report, at: Place, primary: bool, whole: Json, ghost before: seq<Entry>, entry: Entry,
                      folded: bool)
    returns (slot: Option<string>, carried: Option<Json>)
    requires folded == FoldedAlready(before)
    modifies report
    ensures var effect := AgentKey(at, primary, whole, before, entry);
            && report.rows == old(report.rows) + effect.rows && effect.refused.None?
            && effect.writes == if slot.Some? then map[slot.value := carried] else map[]
  {
    var key, child, value := entry.key, at.Child(entry.key), entry.value;
    slot, carried := Some(key), None;
    if key == "model" || key == "prompt" || key == "description" {
      carried := ReadText(report, child, value);
    } else if key == MODE && primary {
      report.Skip(child.from, Overridden);
      slot := None;
    } else if key == MODE {
      carried := ReadMode(report, child, value);
    } else if key == "hidden" || key == "disable" {
      carried := ReadFlag(report, child, value);
    } else if key == PERMISSION || key == TOOLS {
      if folded {
        slot := None;
      } else {
        slot := Some(PERMISSION);
        carried := ReadPermission(report, at, Get(whole, TOOLS), Get(whole, PERMISSION));
      }
    } else if key in DROPPED_AGENT_FIELDS {
      report.Skip(child.from, Unsupported);
      slot := None;
    } else {
      report.Skip(child.from, UnknownKey);
      slot := None;
    }
  }

  method ReadCommandKey(report: Report, at: Place, entry: Entry) returns (slot: Option<string>, carried: Option<Json>)
    modifies report
    ensures var effect := CommandKey(at, entry);
            && report.rows == old(report.rows) + effect.rows && effect.refused.None?
            && effect.writes == if slot.Some? then map[slot.value := carried] else map[]
  {
    var child := at.Child(entry.key);
    slot, carried := None, None;
    if entry.key in COMMAND_ORDER {
      slot := Some(entry.key);
      carried := ReadText(report, child, entry.value);
    } else if entry.key in DROPPED_COMMAND_FIELDS {
      report.Skip(child.from, Unsupported);
    } else {
      report.Skip(child.from, UnknownKey);
    }
  }

  method ReadCommandKeys(report: Report, at: Place, entries: seq<Entry>) returns (fields: map<string, Option<Json>>)
    modifies report
    ensures var all := Walk(CommandField(at), false, entries);
            fields == all.writes && report.rows == old(report.rows) + all.rows
  {
    ghost var field, so := CommandField(at), report.rows;
    fields := map[];
    ThroughNone(field, false, entries, so);
    for n := 0 to |entries|
      invariant Through(field, false, entries, n, fields, so, report.rows, None)
    {
      ghost var rows, effect := report.rows, field(entries[..n], entries[n]);
      var slot, carried := ReadCommandKey(report, at, entries[n]);
      ThroughNext(field, false, entries, n, fields, so, rows, None, effect);
      AssignedIs(fields, slot, carried);
      fields := Assigned(fields, slot, carried);
    }
    ThroughAll(field, false, entries, fields, so, report.rows, None);
  }

  method ReadCommand(report: Report, at: Place, value: Json) returns (kept: Option<Json>)
    modifies report
    ensures Carried(kept, report.rows)
            == Carried(CommandOf(at, value).value, old(report.rows) + CommandOf(at, value).rows)
  {
    if !value.Object? {
      report.Skip(at.from, Malformed);
      return None;
    }
    var fields := ReadCommandKeys(report, at, value.entries);
    if Held(fields, TEMPLATE).None? {
      report.Skip(at.from, Malformed);
      return None;
    }
    return Unless(Present(COMMAND_ORDER, fields));
  }

  /** One key of a server: the slot and value it assigns, or the refusal it meets. */
  method ReadServerKey(report: Report, build: Build, at: Place, local: bool, entry: Entry)
    returns (slot: Option<string>, carried: Option<Json>, refused: Option<Reason>)
    modifies report
    ensures Effect(if slot.Some? then map[slot.value := carried] else map[], report.rows, refused)
            == Effect(ServerKey(build, at, local, entry).writes,
                      old(report.rows)
                        + ServerKey(build, at, local, entry).rows, ServerKey(build, at, local, entry).refused)
  {
    var key, child, value := entry.key, at.Child(entry.key), entry.value;
    slot, carried, refused := Some(key), None, None;
    if key == TYPE {
      report.Map(child.from, child.to);
      carried := Some(value);
    } else if key == COMMAND && local {
      carried, refused := ReadProgram(report, child, value);
    } else if key == URL && !local {
      carried, refused := ReadEndpoint(report, build, child, value);
    } else if key == "cwd" && local {
      carried := ReadText(report, child, value);
    } else if (key == "environment" && local) || (key == HEADERS && !local) {
      carried := ReadTextMap(report, child, value);
    } else if key == "enabled" {
      carried := ReadFlag(report, child, value);
    } else if key == "timeout" {
      carried := ReadPositive(report, child, value);
    } else if key == "oauth" && !local {
      report.Skip(child.from, Unsupported);
      slot := None;
    } else {
      report.Skip(child.from, UnknownKey);
      slot := None;
    }
    if refused.Some? {
      slot := None;
    }
  }

  method ReadServerKeys(collected: Report, build: Build, at: Place, local: bool, entries: seq<Entry>)
    returns (fields: map<string, Option<Json>>, refused: Option<Reason>)
    requires collected.rows == []
    modifies collected
    ensures Walk(ServerField(build, at, local), false, entries) == Effect(fields, collected.rows, refused)
  {
    ghost var field := ServerField(build, at, local);
    fields, refused := map[], None;
    ThroughNone(field, false, entries, []);
    for n := 0 to |entries|
      invariant Through(field, false, entries, n, fields, [], collected.rows, refused)
    {
      ghost var rows, effect := collected.rows, field(entries[..n], entries[n]);
      var slot, carried, met := ReadServerKey(collected, build, at, local, entries[n]);
      ThroughNext(field, false, entries, n, fields, [], rows, refused, effect);
      AssignedIs(fields, slot, carried);
      fields := Assigned(fields, slot, carried);
      refused := Either(met, refused);
    }
    ThroughAll(field, false, entries, fields, [], collected.rows, refused);
    assert [] + Walk(field, false, entries).rows == Walk(field, false, entries).rows;
  }

  method ReadServer(report: Report, build: Build, at: Place, value: Json) returns (kept: Option<Json>)
    modifies report
    ensures Carried(kept, report.rows)
            == Carried(ServerOf(build, at, value).value, old(report.rows) + ServerOf(build, at, value).rows)
  {
    if !value.Object? || KindOf(value) !in [LOCAL, REMOTE] {
      report.Skip(at.from, Malformed);
      return None;
    }
    var kind, local, entries := KindOf(value), KindOf(value) == LOCAL, value.entries;
    var collected := new Report();
    var fields, refused := ReadServerKeys(collected, build, at, local, entries);
    if refused.None? && Held(fields, if local then COMMAND else URL).None? {
      refused := Some(Malformed);
    }
    kept := report.Settle(at, refused, collected, Object([Entry(TYPE, Str(kind))] + Present(SERVER_ORDER, fields)));
  }

  method ReadLspKey(report: Report, at: Place, entry: Entry)
    returns (slot: Option<string>, carried: Option<Json>, refused: Option<Reason>)
    modifies report
    ensures Effect(if slot.Some? then map[slot.value := carried] else map[], report.rows, refused)
            == Effect(LspKey(at, entry).writes, old(report.rows) + LspKey(at, entry).rows, LspKey(at, entry).refused)
  {
    var key, child, value := entry.key, at.Child(entry.key), entry.value;
    slot, carried, refused := Some(key), None, None;
    if key == COMMAND {
      carried, refused := ReadProgram(report, child, value);
    } else if key == EXTENSIONS {
      carried, refused := ReadTexts(report, child, value);
    } else if key == DISABLED {
      carried := ReadFlag(report, child, value);
    } else if key == "env" {
      carried := ReadTextMap(report, child, value);
    } else if key == "initialization" {
      carried := ReadCarry(report, child, value);
    } else {
      report.Skip(child.from, UnknownKey);
      slot := None;
    }
    if refused.Some? {
      slot := None;
    }
  }

  method ReadLspKeys(collected: Report, at: Place, entries: seq<Entry>)
    returns (fields: map<string, Option<Json>>, refused: Option<Reason>)
    requires collected.rows == []
    modifies collected
    ensures Walk(LspField(at), false, entries) == Effect(fields, collected.rows, refused)
  {
    ghost var field := LspField(at);
    fields, refused := map[], None;
    ThroughNone(field, false, entries, []);
    for n := 0 to |entries|
      invariant Through(field, false, entries, n, fields, [], collected.rows, refused)
    {
      ghost var rows, effect := collected.rows, field(entries[..n], entries[n]);
      var slot, carried, met := ReadLspKey(collected, at, entries[n]);
      ThroughNext(field, false, entries, n, fields, [], rows, refused, effect);
      AssignedIs(fields, slot, carried);
      fields := Assigned(fields, slot, carried);
      refused := Either(met, refused);
    }
    ThroughAll(field, false, entries, fields, [], collected.rows, refused);
    assert [] + Walk(field, false, entries).rows == Walk(field, false, entries).rows;
  }

  method ReadLsp(report: Report, at: Place, name: string, value: Json) returns (kept: Option<Json>)
    modifies report
    ensures Carried(kept, report.rows)
            == Carried(LspOf(at, name, value).value, old(report.rows) + LspOf(at, name, value).rows)
  {
    if name !in BUILTIN_IDS && name in UPSTREAM_LSP_SERVERS && !StandsAlone(value) {
      report.Skip(at.from, Unsupported);
      return None;
    }
    if !value.Object? {
      report.Skip(at.from, Malformed);
      return None;
    }
    var collected := new Report();
    var fields, refused := ReadLspKeys(collected, at, value.entries);
    if refused.None? && Held(fields, DISABLED) != Some(Bool(true)) {
      if Held(fields, COMMAND).None? {
        refused := Some(Malformed);
      } else if Held(fields, EXTENSIONS).None? && name !in BUILTIN_IDS {
        refused := Some(Malformed);
      }
    }
    kept := report.Settle(at, refused, collected, Object(Present(LSP_ORDER, fields)));
  }

  method ReadOptions(collected: Report, build: Build, at: Place, value: Json)
    returns (filled: map<string, Option<Json>>, refused: Option<Reason>)
    modifies collected
    ensures filled == OptionsOf(build, at, value).writes && refused == OptionsOf(build, at, value).refused
    ensures collected.rows == old(collected.rows) + OptionsOf(build, at, value).rows
  {
    var from := at.from + [Key(OPTIONS)];
    if !value.Object? {
      collected.Skip(from, Malformed);
      return map[], None;
    }
    collected.Map(from, at.to);
    var found: map<string, Option<Json>>;
    found, refused := ReadOptionKeys(collected, build, at, value.entries);
    filled := OptionSlots(found);
  }

  method ReadOptionKeys(collected: Report, build: Build, at: Place, entries: seq<Entry>)
    returns (found: map<string, Option<Json>>, refused: Option<Reason>)
    modifies collected
    ensures var all := Walk(OptionField(build, at), true, entries);
            found == all.writes && refused == all.refused && collected.rows == old(collected.rows) + all.rows
  {
    ghost var field, so := OptionField(build, at), collected.rows;
    found, refused := map[], None;
    ThroughNone(field, true, entries, so);
    for n := 0 to |entries|
      invariant Through(field, true, entries, n, found, so, collected.rows, refused)
    {
      ghost var rows, effect := collected.rows, field(entries[..n], entries[n]);
      var slot, carried, met := ReadOption(collected, build, at, entries[n]);
      ThroughNext(field, true, entries, n, found, so, rows, refused, effect);
      AssignedIs(found, slot, carried);
      found := Assigned(found, slot, carried);
      refused := Either(refused, met);
    }
    ThroughAll(field, true, entries, found, so, collected.rows, refused);
  }

  method ReadOption(collected: Report, build: Build, at: Place, entry: Entry)
    returns (slot: Option<string>, carried: Option<Json>, refused: Option<Reason>)
    modifies collected
    ensures Effect(if slot.Some? then map[slot.value := carried] else map[], collected.rows, refused)
            == Effect(OptionKey(build, at, entry).writes, old(collected.rows) + OptionKey(build, at, entry).rows,
                      OptionKey(build, at, entry).refused)
  {
    var key, from := entry.key, at.from + [Key(OPTIONS), Key(entry.key)];
    slot, carried, refused := None, None, None;
    if key == API_KEY {
      collected.Skip(from, Credential);
    } else if key == ENDPOINT || key == UPSTREAM_URL {
      carried, refused := ReadEndpoint(collected, build, Place(from, at.to + [Key(BASE_URL)]), entry.value);
      slot := if refused.None? then Some(key) else None;
    } else if key == HEADERS {
      carried := ReadTextMap(collected, Place(from, at.to + [Key(HEADERS)]), entry.value);
      slot := Some(key);
    } else {
      collected.Skip(from, Unsupported);
    }
  }

  method ReadDialect(collected: Report, at: Place, value: Json) returns (spelled: Option<Json>, refused: Option<Reason>)
    modifies collected
    ensures Tried(spelled, collected.rows, refused)
            == Tried(Dialect(at, value).value, old(collected.rows) + Dialect(at, value).rows,
                     Dialect(at, value).refused)
  {
    if !value.Str? {
      return None, Some(Malformed);
    }
    var wire := Wire(value.text);
    if wire.None? {
      return None, Some(Unsupported);
    }
    collected.Map(at.from, at.to);
    return Some(Str(wire.value)), None;
  }

  method ReadProvider(report: Report, build: Build, at: Place, id: string, value: Json) returns (kept: Option<Json>)
    modifies report
    ensures Carried(kept, report.rows)
            == Carried(ProviderOf(build, at, id, value).value, old(report.rows) + ProviderOf(build, at, id, value).rows)
  {
    if !value.Object? {
      report.Skip(at.from, Malformed);
      return None;
    }
    var collected := new Report();
    var fields, refused :=
      ReadProviderKeys(collected, build, at, value.entries, if id in build.shipped then Some(Refused) else None);
    if refused.None? {
      if Held(fields, DIALECT).None? {
        refused := Some(Unsupported);
      } else if Held(fields, BASE_URL).None? {
        refused := Some(Unsupported);
      }
    }
    kept := report.Settle(at, refused, collected, Object(Present(PROVIDER_ORDER, fields)));
  }

  /** One key of a provider: the slots it fills, and the refusal it meets. */
  method ReadProviderKey(collected: Report, build: Build, at: Place, entry: Entry)
    returns (filled: map<string, Option<Json>>, refused: Option<Reason>)
    modifies collected
    ensures var effect := ProviderKey(build, at, entry);
            filled == effect.writes && refused == effect.refused && collected.rows == old(collected.rows) + effect.rows
  {
    var child := at.Child(entry.key);
    filled, refused := map[], None;
    if entry.key == NPM {
      var spelled;
      spelled, refused := ReadDialect(collected, Place(child.from, at.to + [Key(DIALECT)]), entry.value);
      if refused.None? {
        filled := map[DIALECT := spelled];
      }
    } else if entry.key == OPTIONS {
      filled, refused := ReadOptions(collected, build, at, entry.value);
    } else {
      collected.Skip(child.from, Catalog);
    }
  }

  method ReadProviderKeys(collected: Report, build: Build, at: Place, entries: seq<Entry>, met: Option<Reason>)
    returns (fields: map<string, Option<Json>>, refused: Option<Reason>)
    requires collected.rows == []
    modifies collected
    ensures var all := Walk(ProviderField(build, at), true, entries);
            fields == all.writes && collected.rows == all.rows && refused == Either(met, all.refused)
  {
    ghost var field := ProviderField(build, at);
    ghost var walked: Option<Reason> := None;
    fields, refused := map[], met;
    ThroughNone(field, true, entries, []);
    for n := 0 to |entries|
      invariant Through(field, true, entries, n, fields, [], collected.rows, walked) && refused == Either(met, walked)
    {
      ghost var rows, effect := collected.rows, field(entries[..n], entries[n]);
      var filled, why := ReadProviderKey(collected, build, at, entries[n]);
      ThroughNext(field, true, entries, n, fields, [], rows, walked, effect);
      fields := fields + filled;
      walked := Either(walked, why);
      refused := Either(refused, why);
    }
    ThroughAll(field, true, entries, fields, [], collected.rows, walked);
    assert [] + Walk(field, true, entries).rows == Walk(field, true, entries).rows;
  }

  // Sections, and the whole.

  lemma {:induction false} PresentIgnores(order: seq<string>, a: map<string, Option<Json>>,
                                          b: map<string, Option<Json>>)
    requires forall slot <- order :: Held(a, slot) == Held(b, slot)
    ensures Present(order, a) == Present(order, b)
  {
    if order != [] {
      assert order[0] in order;
      PresentIgnores(order[1..], a, b);
    }
  }

  lemma {:induction false} PresentLonger(order: seq<string>, slot: string, writes: map<string, Option<Json>>)
    ensures Present(order + [slot], writes)
            == Present(order, writes) + if Held(writes, slot).Some? then [Entry(slot, Held(writes, slot).value)] else []
  {
    if order != [] {
      PresentLonger(order[1..], slot, writes);
      assert (order + [slot])[1..] == order[1..] + [slot];
    } else {
      assert (order + [slot])[1..] == [];
    }
  }

  /** Putting one more entry of a section where it belongs. */
  lemma PresentInserts(order: seq<string>, slot: string, writes: map<string, Option<Json>>, carried: Option<Json>)
    requires slot !in order
    ensures Present(order + [slot], writes + map[slot := carried])
            == if carried.Some? then Insert(Present(order, writes), slot, carried.value) else Present(order, writes)
  {
    PresentLonger(order, slot, writes + map[slot := carried]);
    PresentIgnores(order, writes, writes + map[slot := carried]);
    PresentFinds(order, writes, slot);
  }

  /** One more key of a walk whose every key fills its own slot. */
  lemma KeysLonger(entries: seq<Entry>, n: nat)
    requires n < |entries| && UniqueKeys(entries)
    ensures Keys(entries[..n + 1]) == Keys(entries[..n]) + [entries[n].key]
    ensures entries[n].key !in Keys(entries[..n])
  {
    NotYet(entries, n);
    HasKeys(entries[..n], entries[n].key);
  }

  lemma WalkGrows(field: Field, entries: seq<Entry>, n: nat, carried: Option<Json>)
    requires n < |entries| && UniqueKeys(entries)
    requires field(entries[..n], entries[n]).writes == map[entries[n].key := carried]
    ensures var before := Present(Keys(entries[..n]), Walk(field, false, entries[..n]).writes);
            Present(Keys(entries[..n + 1]), Walk(field, false, entries[..n + 1]).writes)
            == if carried.Some? then Insert(before, entries[n].key, carried.value) else before
  {
    var writes := Walk(field, false, entries[..n]).writes;
    WalkStep(field, false, entries, n);
    KeysLonger(entries, n);
    PresentInserts(Keys(entries[..n]), entries[n].key, writes, carried);
    assert Walk(field, false, entries[..n + 1]).writes == writes + map[entries[n].key := carried];
  }

  method ReadEntry(report: Report, build: Build, kind: Kind, at: Place, name: string, value: Json)
    returns (kept: Option<Json>)
    modifies report
    ensures Carried(kept, report.rows)
            == Carried(EntryOf(build, kind, at, name, value).value,
                       old(report.rows) + EntryOf(build, kind, at, name, value).rows)
  {
    match kind {
      case Agents(primary) => kept := ReadAgent(report, at, value, primary);
      case Commands => kept := ReadCommand(report, at, value);
      case Servers => kept := ReadServer(report, build, at, value);
      case LanguageServers => kept := ReadLsp(report, at, name, value);
      case Providers => kept := ReadProvider(report, build, at, name, value);
    }
  }

  method ReadSection(report: Report, build: Build, kind: Kind, at: Place, value: Json) returns (kept: Option<Json>)
    requires WellFormed(value)
    modifies report
    ensures kept == SectionOf(build, kind, at, value).value
    ensures report.rows == old(report.rows) + SectionOf(build, kind, at, value).rows
  {
    if kind.LanguageServers? && value.Bool? {
      report.Map(at.from, at.to);
      return Some(value);
    }
    if !value.Object? {
      report.Skip(at.from, if kind.Providers? then Catalog else Malformed);
      return None;
    }
    var carried := ReadEntries(report, build, kind, at, value.entries);
    assert value.entries[..|value.entries|] == value.entries;
    return Unless(carried);
  }

  method ReadNamed(report: Report, build: Build, kind: Kind, at: Place, ghost before: seq<Entry>, entry: Entry)
    returns (carried: Option<Json>)
    modifies report
    ensures var effect := SectionField(build, kind, at)(before, entry);
            effect.writes == map[entry.key := carried] && report.rows == old(report.rows) + effect.rows
  {
    carried := ReadEntry(report, build, kind, at.Child(entry.key), entry.key, entry.value);
  }

  /** What has been carried of the first `n` entries, and the rows that says so. */
  ghost predicate ReadSoFar(field: Field, entries: seq<Entry>, n: nat, carried: seq<Entry>, so: seq<Row>,
                            rows: seq<Row>)
    requires n <= |entries|
  {
    var all := Walk(field, false, entries[..n]);
    carried == Present(Keys(entries[..n]), all.writes) && rows == so + all.rows
  }

  lemma SoFarGrows(field: Field, entries: seq<Entry>, n: nat, carried: seq<Entry>, so: seq<Row>, rows: seq<Row>,
                   entry: Option<Json>)
    requires UniqueKeys(entries) && n < |entries| && ReadSoFar(field, entries, n, carried, so, rows)
    requires field(entries[..n], entries[n]).writes == map[entries[n].key := entry]
    ensures ReadSoFar(field, entries, n + 1,
                      if entry.Some? then Insert(carried, entries[n].key, entry.value) else carried,
                      so, rows + field(entries[..n], entries[n]).rows)
  {
    WalkGrows(field, entries, n, entry);
    WalkStep(field, false, entries, n);
    Regroup(so, Walk(field, false, entries[..n]).rows, field(entries[..n], entries[n]).rows);
  }

  method ReadNext(report: Report, build: Build, kind: Kind, at: Place, entries: seq<Entry>, n: nat, carried: seq<Entry>,
                  ghost so: seq<Row>)
    returns (more: seq<Entry>)
    requires UniqueKeys(entries) && n < |entries|
    requires ReadSoFar(SectionField(build, kind, at), entries, n, carried, so, report.rows)
    modifies report
    ensures ReadSoFar(SectionField(build, kind, at), entries, n + 1, more, so, report.rows)
  {
    var entry := ReadNamed(report, build, kind, at, entries[..n], entries[n]);
    more := if entry.Some? then Insert(carried, entries[n].key, entry.value) else carried;
    SoFarGrows(SectionField(build, kind, at), entries, n, carried, so, old(report.rows), entry);
  }

  method ReadEntries(report: Report, build: Build, kind: Kind, at: Place, entries: seq<Entry>)
    returns (carried: seq<Entry>)
    requires UniqueKeys(entries)
    modifies report
    ensures ReadSoFar(SectionField(build, kind, at), entries, |entries|, carried, old(report.rows), report.rows)
  {
    carried := [];
    for n := 0 to |entries|
      invariant ReadSoFar(SectionField(build, kind, at), entries, n, carried, old(report.rows), report.rows)
    {
      carried := ReadNext(report, build, kind, at, entries, n, carried, old(report.rows));
    }
  }

  /** One top-level key: the slot it fills, if it fills one. `mode` waits until every key has been read. */
  method ReadRootKey(report: Report, build: Build, config: Json, ghost before: seq<Entry>, entry: Entry, folded: bool)
    returns (slot: Option<string>, carried: Option<Json>)
    requires folded == FoldedAlready(before) && WellFormed(entry.value)
    modifies report
    ensures var effect := RootKey(build, config, before, entry);
            && report.rows == old(report.rows) + effect.rows && effect.refused.None?
            && effect.writes == if slot.Some? then map[slot.value := carried] else map[]
  {
    var key, child, value := entry.key, ROOT.Child(entry.key), entry.value;
    slot, carried := Some(key), None;
    if key in TEXT_KEYS {
      assert RootKey(build, config, before, entry) == Set(key, Text(child, value));
      carried := ReadText(report, child, value);
    } else if key == INSTRUCTIONS {
      carried := ReadInstructions(report, child, value);
    } else if key == PERMISSION || key == TOOLS {
      if folded {
        slot := None;
      } else {
        slot := Some(PERMISSION);
        carried := ReadPermission(report, ROOT, Get(config, TOOLS), Get(config, PERMISSION));
      }
    } else if SectionNamed(key).Some? {
      carried := ReadSection(report, build, SectionNamed(key).value, child, value);
    } else if key == MODE {
      slot := None;
    } else if key == SNAPSHOT {
      carried := ReadFlag(report, child, value);
    } else {
      report.Skip(child.from, WhySkipped(key));
      slot := None;
    }
  }

  method MapConfig(build: Build, config: Json) returns (document: Json, report: Report)
    requires config.Object? && WellFormed(config)
    ensures fresh(report)
    ensures document == ImportOf(build, config).0 && report.rows == ImportOf(build, config).1
  {
    report := new Report();
    var built, modes := ReadRootKeys(report, build, config);
    var agents := EntriesIn(Held(built, AGENT));
    if modes.Some? {
      ModesUnique(build, config);
      var more := ReadSection(report, build, Agents(true), MODE_PLACE, modes.value);
      agents := PutAll(agents, EntriesIn(more));
    }
    built := built[AGENT := Unless(agents)];
    document := Object(Present(ROOT_ORDER, built));
  }

  method PutAll(mine: seq<Entry>, theirs: seq<Entry>) returns (all: seq<Entry>)
    ensures all == InsertAll(mine, theirs)
  {
    all := mine;
    for n := 0 to |theirs|
      invariant all == InsertAll(mine, theirs[..n])
    {
      assert theirs[..n + 1][..n] == theirs[..n];
      all := Insert(all, theirs[n].key, theirs[n].value);
    }
    assert theirs[..|theirs|] == theirs;
  }

  lemma FoldedLonger(entries: seq<Entry>, n: nat)
    requires n < |entries|
    ensures FoldedAlready(entries[..n + 1])
            <==> FoldedAlready(entries[..n]) || entries[n].key == PERMISSION || entries[n].key == TOOLS
  {
    HasLonger(entries, n, PERMISSION);
    HasLonger(entries, n, TOOLS);
  }

  /** Where the loop over the top-level keys stands. */
  ghost predicate RootSoFar(build: Build, config: Json, n: nat, built: map<string, Option<Json>>,
                            modes: Option<Json>, rows: seq<Row>)
    requires config.Object? && n <= |config.entries|
  {
    && modes == Find(config.entries[..n], MODE)
    && Through(RootField(build, config), false, config.entries, n, built, [], rows, None)
  }

  method ReadRootKeys(report: Report, build: Build, config: Json)
    returns (built: map<string, Option<Json>>, modes: Option<Json>)
    requires config.Object? && WellFormed(config) && report.rows == []
    modifies report
    ensures built == RootWalk(build, config).writes && report.rows == RootWalk(build, config).rows
    ensures modes == Get(config, MODE)
  {
    var entries: seq<Entry> := config.entries;
    var folded := false;
    built, modes := map[], None;
    ThroughNone(RootField(build, config), false, entries, []);
    for n := 0 to |entries|
      invariant folded == FoldedAlready(entries[..n]) && RootSoFar(build, config, n, built, modes, report.rows)
    {
      FoldedLonger(entries, n);
      built, modes := ReadRootEntry(report, build, config, n, folded, built, modes);
      folded := folded || entries[n].key == PERMISSION || entries[n].key == TOOLS;
    }
    ThroughAll(RootField(build, config), false, entries, built, [], report.rows, None);
    assert entries[..|entries|] == entries;
    assert [] + RootWalk(build, config).rows == RootWalk(build, config).rows;
  }

  method ReadRootEntry(report: Report, build: Build, config: Json, n: nat, folded: bool,
                       fields: map<string, Option<Json>>, found: Option<Json>)
    returns (built: map<string, Option<Json>>, modes: Option<Json>)
    requires config.Object? && WellFormed(config) && n < |config.entries|
    requires folded == FoldedAlready(config.entries[..n]) && RootSoFar(build, config, n, fields, found, report.rows)
    modifies report
    ensures RootSoFar(build, config, n + 1, built, modes, report.rows)
  {
    var entry := config.entries[n];
    ghost var rows, effect := report.rows, RootKey(build, config, config.entries[..n], entry);
    ModeFound(config.entries, n);
    var slot, carried := ReadRootKey(report, build, config, config.entries[..n], entry, folded);
    ThroughNext(RootField(build, config), false, config.entries, n, fields, [], rows, None, effect);
    AssignedIs(fields, slot, carried);
    built := Assigned(fields, slot, carried);
    modes := if entry.key == MODE then Some(entry.value) else found;
  }

  lemma ModeFound(entries: seq<Entry>, n: nat)
    requires n < |entries| && UniqueKeys(entries)
    ensures Find(entries[..n + 1], MODE)
            == if entries[n].key == MODE then Some(entries[n].value) else Find(entries[..n], MODE)
  {
    assert entries[..n + 1] == entries[..n] + [entries[n]];
    FindAppend(entries[..n], [entries[n]], MODE);
    NotYet(entries, n);
  }
}
