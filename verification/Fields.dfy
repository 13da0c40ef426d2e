/** The values a mapper reads one key at a time: what each carries across and the row it leaves. */
module Fields {
  import opened Optional
  import opened JsonTree
  import opened Numbers
  import opened Tokens
  import opened Landing
  import opened Accounts
  import opened Guarding
  import opened Walks

  const MODES := [PRIMARY, "subagent", "all"]

  /** What a value that must be read whole comes to: carried, or the reason it refuses its entry. */
  datatype Tried = Tried(value: Option<Json>, rows: seq<Row>, refused: Option<Reason>)

  function Mistaken(at: Place): Carried {
    Carried(None, [Skipped(at.from, Malformed)])
  }

  /** A string, guarded. */
  function Text(at: Place, value: Json): Carried {
    if !value.Str? then Mistaken(at)
    else match Guard(value.text)
      case None => Carried(None, [Skipped(at.from, OnlyAToken)])
      case Some(kept) => Carried(Some(Str(kept)), [Mapped(at.from, at.to)])
  }

  function Flag(at: Place, value: Json): Carried {
    if value.Bool? then Carried(Some(value), [Mapped(at.from, at.to)]) else Mistaken(at)
  }

  /** One of the three agent modes. */
  function ModeNamed(at: Place, value: Json): Carried {
    if value.Str? && value.text in MODES then Carried(Some(value), [Mapped(at.from, at.to)]) else Mistaken(at)
  }

  /** A whole number above zero that a signed 64-bit integer holds, kept as it was spelled. */
  function Positive(at: Place, value: Json): Carried {
    if value.Number? && ParseWhole(value.spelled).Some? && ParseWhole(value.spelled).value > 0
    then Carried(Some(value), [Mapped(at.from, at.to)])
    else Mistaken(at)
  }

  /** The strings of a map, each guarded. */
  function KeptTexts(at: Place, entries: seq<Entry>): (seq<Entry>, seq<Row>) {
    if entries == [] then ([], [])
    else
      var n := |entries| - 1;
      var (kept, rows) := KeptTexts(at, entries[..n]);
      var from := at.Child(entries[n].key).from;
      if !entries[n].value.Str? then (kept, rows + [Skipped(from, Malformed)])
      else match Guard(entries[n].value.text)
        case None => (kept, rows + [Skipped(from, OnlyAToken)])
        case Some(text) => (Insert(kept, entries[n].key, Str(text)), rows)
  }

  /** A map of strings: carried even when nothing in it survives. */
  function TextMap(at: Place, value: Json): Carried {
    if !value.Object? then Mistaken(at)
    else
      var (kept, rows) := KeptTexts(at, value.entries);
      Carried(Some(Object(kept)), rows + [Mapped(at.from, at.to)])
  }

  /** The first element that is not a string worth carrying: where it is, and why. */
  function FirstBad(elements: seq<Json>, i: nat): Option<(nat, Reason)>
    requires i <= |elements|
    decreases |elements| - i
  {
    if i == |elements| then None
    else if !elements[i].Str? then Some((i, Malformed))
    else if Guard(elements[i].text).None? then Some((i, OnlyAToken))
    else FirstBad(elements, i + 1)
  }

  predicate Carryable(element: Json) {
    element.Str? && Guard(element.text).Some?
  }

  lemma {:induction false} SomeBad(elements: seq<Json>, i: nat)
    requires i <= |elements| && FirstBad(elements, i).Some?
    ensures exists j :: i <= j < |elements| && !Carryable(elements[j])
    decreases |elements| - i
  {
    if Carryable(elements[i]) {
      SomeBad(elements, i + 1);
    }
  }

  lemma {:induction false} NoneBad(elements: seq<Json>, i: nat)
    requires i <= |elements| && FirstBad(elements, i).None?
    ensures forall j :: i <= j < |elements| ==> Carryable(elements[j])
    decreases |elements| - i
  {
    if i < |elements| {
      NoneBad(elements, i + 1);
    }
  }

  /** A list of strings, every one or none. */
  function Texts(at: Place, value: Json): Tried {
    if !value.Array? then Tried(None, [], Some(Malformed))
    else match FirstBad(value.elements, 0)
      case None => Tried(Some(value), [Mapped(at.from, at.to)], None)
      case Some((i, reason)) =>
        Tried(None, if reason == OnlyAToken then [Skipped(at.Item(i).from, OnlyAToken)] else [], Some(reason))
  }

  /** A `command`: a list of strings that names a program. */
  function Program(at: Place, value: Json): Tried {
    var texts := Texts(at, value);
    if texts.value == Some(Array([])) then Tried(None, texts.rows, Some(Malformed)) else texts
  }

  /** An endpoint that headers may be sent to. */
  function Endpoint(at: Place, value: Json, reachable: string -> bool): Tried {
    if !value.Str? then Tried(None, [], Some(Malformed))
    else match Guard(value.text)
      case None => Tried(None, [Skipped(at.from, OnlyAToken)], Some(OnlyAToken))
      case Some(text) =>
        if reachable(text) then Tried(Some(Str(text)), [Mapped(at.from, at.to)], None)
        else Tried(None, [], Some(Refused))
  }

  /** An object carried as it stands, less what has to be left out of it. */
  function Carry(at: Place, value: Json): Carried {
    if !value.Object? then Mistaken(at)
    else
      var carried := GuardedOf(at.from, value);
      Carried(carried.value, carried.rows + [Mapped(at.from, at.to)])
  }

  const HTTP := "http://"
  const HTTPS := "https://"

  function KeptInstructions(at: Place, elements: seq<Json>): (seq<Json>, seq<Row>) {
    if elements == [] then ([], [])
    else
      var n := |elements| - 1;
      var (kept, rows) := KeptInstructions(at, elements[..n]);
      var from := at.Item(n).from;
      if !elements[n].Str? then (kept, rows + [Skipped(from, Malformed)])
      else if HTTP <= elements[n].text || HTTPS <= elements[n].text then (kept, rows + [Skipped(from, Unsupported)])
      else match Guard(elements[n].text)
        case None => (kept, rows + [Skipped(from, OnlyAToken)])
        case Some(text) => (kept + [Str(text)], rows)
  }

  /** The instruction paths that are files. */
  function Instructions(at: Place, value: Json): Carried {
    if !value.Array? then Mistaken(at)
    else
      var (kept, rows) := KeptInstructions(at, value.elements);
      if kept == [] then Carried(None, rows) else Carried(Some(Array(kept)), rows + [Mapped(at.from, at.to)])
  }

  // What each leaves in the report.

  /** The rows account for the value and are honest about what was carried of it. */
  ghost predicate Told(carried: Carried, at: Place, value: Json) {
    Accounted(carried.rows, at.from, value) && AllHonest(carried.rows, at, value, carried.value)
  }

  lemma OneRowTold(carried: Carried, at: Place, value: Json)
    requires |carried.rows| == 1 && carried.rows[0].from == at.from
    requires carried.rows[0].Mapped? ==> carried.rows[0].to == at.to && carried.value == Some(value)
    ensures Told(carried, at, value)
  {
    PrunesSelf(value);
    OwnRowHonest(carried.rows[0], at, value, carried.value);
    assert carried.rows == [carried.rows[0]];
    assert Named(carried.rows, at.from);
  }

  lemma TextTold(at: Place, value: Json)
    ensures Told(Text(at, value), at, value)
  {
    if value.Str? {
      GuardRefusesTokens(value.text);
    }
    OneRowTold(Text(at, value), at, value);
  }

  lemma FlagTold(at: Place, value: Json)
    ensures Told(Flag(at, value), at, value)
  {
    OneRowTold(Flag(at, value), at, value);
  }

  lemma ModeTold(at: Place, value: Json)
    ensures Told(ModeNamed(at, value), at, value)
  {
    OneRowTold(ModeNamed(at, value), at, value);
  }

  lemma PositiveTold(at: Place, value: Json)
    ensures Told(Positive(at, value), at, value)
  {
    OneRowTold(Positive(at, value), at, value);
  }

  /** Skip rows, each about a part that is there. */
  ghost predicate Aside(rows: seq<Row>, at: Place, value: Json) {
    forall i :: 0 <= i < |rows| ==> rows[i].Skipped? && Sourced(rows[i], at, value)
  }

  /** A container's rows end with its own, and everything before that is about parts left out. */
  lemma ContainerTold(at: Place, value: Json, rows: seq<Row>, carried: Json)
    requires Aside(rows, at, value) && Prunes(value, carried)
    ensures Told(Carried(Some(carried), rows + [Mapped(at.from, at.to)]), at, value)
  {
    var own := [Mapped(at.from, at.to)];
    OwnRowHonest(own[0], at, value, Some(carried));
    assert AllHonest(rows, at, value, Some(carried));
    AllHonestBoth(rows, own, at, value, Some(carried));
    assert (rows + own)[|rows|].from == at.from;
  }

  lemma StepThere(from: Path, step: Step, value: Json, reason: Reason, at: Place)
    requires from == at.from + [step] && At(value, [step]).Some?
    ensures Sourced(Skipped(from, reason), at, value)
  {
    assert from[|at.from|..] == [step];
  }

  lemma {:induction false} TextMapKeeps(at: Place, entries: seq<Entry>, n: nat)
    requires n <= |entries| && UniqueKeys(entries)
    ensures var (kept, rows) := KeptTexts(at, entries[..n]);
            && Aside(rows, at, Object(entries)) && PrunesEntries(entries[..n], kept)
            && forall key :: Has(kept, key) ==> Has(entries[..n], key)
  {
    if n > 0 {
      var m := n - 1;
      TextMapKeeps(at, entries, m);
      assert entries[..n][..m] == entries[..m];
      var key, value := entries[m].key, entries[m].value;
      var before, kept := KeptTexts(at, entries[..m]).0, KeptTexts(at, entries[..n]).0;
      IndexOfUnique(entries, m);
      assert [Key(key)][1..] == [] && At(Object(entries), [Key(key)]) == Some(value);
      StepThere(at.from + [Key(key)], Key(key), Object(entries), Malformed, at);
      StepThere(at.from + [Key(key)], Key(key), Object(entries), OnlyAToken, at);
      forall other ensures Has(entries[..n], other) <==> Has(entries[..m], other) || other == key {
        HasLonger(entries, m, other);
      }
      assert !Has(entries[..m], key) && !Has(before, key);
      if value.Str? && Guard(value.text).Some? {
        GuardRefusesTokens(value.text);
        assert kept == before + [entries[m]] && kept[..|kept| - 1] == before;
        forall other ensures Has(kept, other) ==> Has(before, other) || other == key {
          FindAppend(before, [entries[m]], other);
        }
      }
    }
  }

  lemma TextMapTold(at: Place, value: Json)
    requires WellFormed(value)
    ensures Told(TextMap(at, value), at, value)
  {
    if value.Object? {
      var entries := value.entries;
      TextMapKeeps(at, entries, |entries|);
      assert entries[..|entries|] == entries;
      var (kept, rows) := KeptTexts(at, entries);
      ContainerTold(at, value, rows, Object(kept));
    } else {
      OneRowTold(TextMap(at, value), at, value);
    }
  }

  lemma CarryTold(at: Place, value: Json)
    requires WellFormed(value)
    ensures Told(Carry(at, value), at, value)
  {
    if value.Object? {
      GuardedRowsExplain(at.from, value);
      GuardedPrunes(at.from, value);
      var carried := GuardedOf(at.from, value);
      ContainerTold(at, value, carried.rows, carried.value.value);
    } else {
      OneRowTold(Carry(at, value), at, value);
    }
  }

  lemma {:induction false} InstructionsKeep(at: Place, elements: seq<Json>, n: nat)
    requires n <= |elements|
    ensures var (kept, rows) := KeptInstructions(at, elements[..n]);
            && Aside(rows, at, Array(elements)) && PrunesElements(elements[..n], kept)
            && (kept == [] ==> forall i :: 0 <= i < n ==> Named(rows, at.from + [Index(i)]))
  {
    if n > 0 {
      var m := n - 1;
      InstructionsKeep(at, elements, m);
      var (before, earlier) := KeptInstructions(at, elements[..m]);
      var (kept, rows) := KeptInstructions(at, elements[..n]);
      InstructionsStep(at, elements, m);
      assert elements[..n][..m] == elements[..m];
      if rows != earlier {
        ElementThere(at, elements, m, rows[|earlier|].reason);
        if kept == [] {
          forall i | 0 <= i < m ensures Named(rows, at.from + [Index(i)]) {
            NamedMore(earlier, [rows[|earlier|]], at.from + [Index(i)]);
          }
        }
      } else {
        assert kept[..|kept| - 1] == before;
      }
    }
  }

  lemma ElementThere(at: Place, elements: seq<Json>, i: nat, reason: Reason)
    requires i < |elements|
    ensures Sourced(Skipped(at.from + [Index(i)], reason), at, Array(elements))
  {
    assert [Index(i)][1..] == [] && At(Array(elements), [Index(i)]) == Some(elements[i]);
    StepThere(at.from + [Index(i)], Index(i), Array(elements), reason, at);
  }

  /** Each element is kept as it is, or has a row of its own. */
  lemma InstructionsStep(at: Place, elements: seq<Json>, m: nat)
    requires m < |elements|
    ensures var (before, earlier) := KeptInstructions(at, elements[..m]);
            var (kept, rows) := KeptInstructions(at, elements[..m + 1]);
            || (kept == before + [elements[m]] && rows == earlier)
            || (kept == before && |rows| == |earlier| + 1 && rows == earlier + [rows[|earlier|]]
                && rows[|earlier|].Skipped? && rows[|earlier|].from == at.from + [Index(m)])
  {
    assert elements[..m + 1][..m] == elements[..m];
    if elements[m].Str? {
      GuardRefusesTokens(elements[m].text);
    }
  }

  lemma InstructionsTold(at: Place, value: Json)
    ensures Told(Instructions(at, value), at, value)
  {
    if value.Array? {
      var elements := value.elements;
      InstructionsKeep(at, elements, |elements|);
      assert elements[..|elements|] == elements;
      var (kept, rows) := KeptInstructions(at, elements);
      if kept != [] {
        ContainerTold(at, value, rows, Array(kept));
      }
    } else {
      OneRowTold(Instructions(at, value), at, value);
    }
  }

  lemma {:induction false} FirstBadIs(elements: seq<Json>, i: nat)
    requires i <= |elements|
    ensures var bad := FirstBad(elements, i);
            bad.Some? ==> i <= bad.value.0 < |elements|
    decreases |elements| - i
  {
    if i < |elements| {
      FirstBadIs(elements, i + 1);
    }
  }

  /** A value read whole: when it does not refuse it is carried as it was. */
  ghost predicate TriedTold(tried: Tried, at: Place, value: Json) {
    && AllSourced(tried.rows, at, value)
    && (tried.refused.None? ==> Told(Carried(tried.value, tried.rows), at, value))
  }

  lemma TextsTold(at: Place, value: Json)
    ensures TriedTold(Texts(at, value), at, value) && TriedTold(Program(at, value), at, value)
  {
    assert at.from[|at.from|..] == [];
    if value.Array? {
      FirstBadIs(value.elements, 0);
      match FirstBad(value.elements, 0)
      case None =>
        OneRowTold(Carried(Texts(at, value).value, Texts(at, value).rows), at, value);
      case Some((i, reason)) =>
        assert [Index(i)][1..] == [] && At(value, [Index(i)]) == Some(value.elements[i]);
        StepThere(at.from + [Index(i)], Index(i), value, OnlyAToken, at);
    }
  }

  lemma EndpointTold(at: Place, value: Json, reachable: string -> bool)
    ensures TriedTold(Endpoint(at, value, reachable), at, value)
  {
    assert at.from[|at.from|..] == [];
    if value.Str? {
      GuardRefusesTokens(value.text);
      var tried := Endpoint(at, value, reachable);
      if tried.refused.None? {
        OneRowTold(Carried(tried.value, tried.rows), at, value);
      }
    }
  }
}
