/** The entries written whole or not at all: an MCP server, a language server, a provider. */
module Services {
  import opened Optional
  import opened JsonTree
  import opened Tokens
  import opened Landing
  import opened Accounts
  import opened Guarding
  import opened Walks
  import opened Fields
  import opened Entries

  /**
   * What the import asks of the rest of the build: whether an endpoint may be sent headers, and the providers
   * it ships.
   */
  datatype Build = Build(reachable: string -> bool, shipped: set<string>)

  // Entries written whole or not at all.

  /** The rows that stay true of an entry that was left out. */
  function Credentials(rows: seq<Row>): seq<Row> {
    if rows == [] then []
    else
      var last := rows[|rows| - 1];
      Credentials(rows[..|rows| - 1]) + if last.Skipped? && last.reason == Credential then [last] else []
  }

  function Settled(at: Place, refused: Option<Reason>, rows: seq<Row>, document: Json): Carried {
    if refused.Some? then Carried(None, [Skipped(at.from, refused.value)] + Credentials(rows))
    else Carried(Some(document), rows)
  }

  lemma {:induction false} CredentialsOnly(rows: seq<Row>)
    ensures forall row <- Credentials(rows) :: row.Skipped? && row.reason == Credential && row in rows
    ensures forall row <- rows :: row.Skipped? && row.reason == Credential ==> row in Credentials(rows)
  {
    if rows != [] {
      CredentialsOnly(rows[..|rows| - 1]);
      assert rows == rows[..|rows| - 1] + [rows[|rows| - 1]];
    }
  }

  lemma SettledTold(at: Place, refused: Option<Reason>, rows: seq<Row>, document: Json, value: Json)
    requires AllSourced(rows, at, value)
    requires refused.None? ==> Told(Carried(Some(document), rows), at, value)
    ensures Told(Settled(at, refused, rows, document), at, value)
  {
    if refused.Some? {
      var settled := Settled(at, refused, rows, document).rows;
      CredentialsOnly(rows);
      assert settled[0].from == at.from && at.from[|at.from|..] == [];
      forall i | 0 <= i < |settled| ensures Honest(settled[i], at, value, None) {
        if i > 0 {
          assert settled[i] == Credentials(rows)[i - 1] && settled[i] in rows;
        }
      }
    }
  }

  // MCP servers.

  const LOCAL := "local"
  const REMOTE := "remote"
  const TYPE := "type"
  const COMMAND := "command"
  const URL := "url"

  const SERVER_ORDER := [COMMAND, URL, "cwd", "environment", HEADERS, "enabled", "timeout"]

  function ServerKey(build: Build, at: Place, local: bool, entry: Entry): Effect {
    var child, key, value := at.Child(entry.key), entry.key, entry.value;
    if key == TYPE then Set(key, Carried(Some(value), [Mapped(child.from, child.to)]))
    else if key == COMMAND && local then Try(key, Program(child, value))
    else if key == URL && !local then Try(key, Endpoint(child, value, build.reachable))
    else if key == "cwd" && local then Set(key, Text(child, value))
    else if key == "environment" && local then Set(key, TextMap(child, value))
    else if key == HEADERS && !local then Set(key, TextMap(child, value))
    else if key == "enabled" then Set(key, Flag(child, value))
    else if key == "timeout" then Set(key, Positive(child, value))
    else if key == "oauth" && !local then Skip(child, Unsupported)
    else Skip(child, UnknownKey)
  }

  function ServerField(build: Build, at: Place, local: bool): Field {
    (before, entry) => ServerKey(build, at, local, entry)
  }

  function KindOf(value: Json): string {
    var kind := Get(value, TYPE);
    if kind.Some? && kind.value.Str? then kind.value.text else ""
  }

  function ServerOf(build: Build, at: Place, value: Json): Carried {
    if !value.Object? || KindOf(value) !in [LOCAL, REMOTE] then Mistaken(at)
    else
      var local := KindOf(value) == LOCAL;
      var all := Walk(ServerField(build, at, local), false, value.entries);
      var missing := Held(all.writes, if local then COMMAND else URL).None?;
      var refused := if all.refused.None? && missing then Some(Malformed) else all.refused;
      Settled(at, refused, all.rows, Object([Entry(TYPE, Str(KindOf(value)))] + Present(SERVER_ORDER, all.writes)))
  }

  lemma ServerKeyPlain(build: Build, at: Place, local: bool, whole: Json, i: nat, document: Option<Json>)
    requires whole.Object? && WellFormed(whole) && i < |whole.entries|
    ensures PlainKey(ServerKey(build, at, local, whole.entries[i]), at, whole, i, document)
    ensures SlotsIn(ServerKey(build, at, local, whole.entries[i]), [TYPE] + SERVER_ORDER)
  {
    var key, value := whole.entries[i].key, whole.entries[i].value;
    var child := at.Child(key);
    ServerSlots(build, at, local, whole.entries[i]);
    if key == TYPE {
      OneRowTold(Carried(Some(value), [Mapped(child.from, child.to)]), child, value);
      SetPlain(Carried(Some(value), [Mapped(child.from, child.to)]), at, whole, i, document);
    } else if key == COMMAND && local {
      TextsTold(child, value);
      TryPlain(Program(child, value), at, whole, i, document);
    } else if key == URL && !local {
      EndpointTold(child, value, build.reachable);
      TryPlain(Endpoint(child, value, build.reachable), at, whole, i, document);
    } else if key == "cwd" || key == "enabled" || key == "timeout" {
      SimpleTold(child, value);
      SetPlain(Text(child, value), at, whole, i, document);
      SetPlain(Flag(child, value), at, whole, i, document);
      SetPlain(Positive(child, value), at, whole, i, document);
      SkipPlain(UnknownKey, at, whole, i, document);
    } else {
      TextMapTold(child, value);
      SetPlain(TextMap(child, value), at, whole, i, document);
      SkipPlain(Unsupported, at, whole, i, document);
      SkipPlain(UnknownKey, at, whole, i, document);
    }
  }

  lemma SimpleTold(at: Place, value: Json)
    requires WellFormed(value)
    ensures Told(Text(at, value), at, value) && Told(TextMap(at, value), at, value)
    ensures Told(Flag(at, value), at, value) && Told(Positive(at, value), at, value)
  {
    TextTold(at, value);
    TextMapTold(at, value);
    FlagTold(at, value);
    PositiveTold(at, value);
  }

  lemma ServerSlots(build: Build, at: Place, local: bool, entry: Entry)
    ensures SlotsIn(ServerKey(build, at, local, entry), [TYPE] + SERVER_ORDER)
  {
    var order := [TYPE] + SERVER_ORDER;
    assert order[0] == TYPE && order[1] == COMMAND && order[2] == URL && order[3] == "cwd" && order[4] == "environment"
        && order[5] == HEADERS && order[6] == "enabled" && order[7] == "timeout";
  }

  lemma ServerTold(build: Build, at: Place, value: Json)
    requires WellFormed(value)
    ensures Told(ServerOf(build, at, value), at, value)
  {
    if !value.Object? || KindOf(value) !in [LOCAL, REMOTE] {
      OneRowTold(ServerOf(build, at, value), at, value);
      return;
    }
    var local, entries := KindOf(value) == LOCAL, value.entries;
    var field := ServerField(build, at, local);
    var all := Walk(field, false, entries);
    var document := Object([Entry(TYPE, Str(KindOf(value)))] + Present(SERVER_ORDER, all.writes));
    forall i | 0 <= i < |entries|
      ensures PlainKey(field(entries[..i], entries[i]), at, value, i, Some(document))
      ensures SlotsIn(field(entries[..i], entries[i]), [TYPE] + SERVER_ORDER)
    {
      ServerKeyPlain(build, at, local, value, i, Some(document));
    }
    PlainWalkTold(field, false, at, value, Some(document));
    ServerDelivers(build, at, value, local, document);
    var missing := Held(all.writes, if local then COMMAND else URL).None?;
    var refused := if all.refused.None? && missing then Some(Malformed) else all.refused;
    SettledTold(at, refused, all.rows, document, value);
  }

  lemma ServerOwnsAll(build: Build, at: Place, local: bool, value: Json)
    requires WellFormed(value) && value.Object?
    ensures AllOwnSlots(ServerField(build, at, local), SelfOwned(), value.entries)
    ensures SlotsIn(Walk(ServerField(build, at, local), false, value.entries), [TYPE] + SERVER_ORDER)
  {
    var field, entries := ServerField(build, at, local), value.entries;
    assert entries[..|entries|] == entries;
    forall i | 0 <= i < |entries|
      ensures OwnSlots(field(entries[..i], entries[i]), SelfOwned(), entries[..i], entries[i])
      ensures SlotsIn(field(entries[..i], entries[i]), [TYPE] + SERVER_ORDER)
    {
      ServerKeyPlain(build, at, local, value, i, None);
    }
    WalkSlotsIn(field, false, entries, [TYPE] + SERVER_ORDER, |entries|);
  }

  lemma TypeHeld(build: Build, at: Place, local: bool, value: Json)
    requires WellFormed(value) && value.Object? && KindOf(value) in [LOCAL, REMOTE]
    ensures Held(Walk(ServerField(build, at, local), false, value.entries).writes, TYPE) == Some(Str(KindOf(value)))
  {
    var field, entries := ServerField(build, at, local), value.entries;
    var i := IndexOf(entries, TYPE);
    assert entries[..|entries|] == entries;
    assert |LOCAL| == 5 && |REMOTE| == 6 && KindOf(value) != "" && i < |entries|;
    ServerOwnsAll(build, at, local, value);
    WritesStay(field, false, SelfOwned(), entries, |entries|, i);
    assert TYPE in field(entries[..i], entries[i]).writes.Keys;
  }

  lemma ServerDelivers(build: Build, at: Place, value: Json, local: bool, document: Json)
    requires WellFormed(value) && value.Object? && KindOf(value) in [LOCAL, REMOTE]
    requires document
             == Object([Entry(TYPE, Str(KindOf(value)))]
                       + Present(SERVER_ORDER, Walk(ServerField(build, at, local), false, value.entries).writes))
    ensures Delivers(Walk(ServerField(build, at, local), false, value.entries).writes, Some(document))
  {
    var writes := Walk(ServerField(build, at, local), false, value.entries).writes;
    ServerOwnsAll(build, at, local, value);
    TypeHeld(build, at, local, value);
    forall slot <- writes.Keys | writes[slot].Some? ensures Get(document, slot) == writes[slot] {
      PresentFinds(SERVER_ORDER, writes, slot);
      FindAppend([Entry(TYPE, Str(KindOf(value)))], Present(SERVER_ORDER, writes), slot);
    }
  }

  // Language servers.

  const EXTENSIONS := "extensions"
  const DISABLED := "disabled"

  /** The language servers this build ships a definition of. */
  const BUILTIN_IDS := ["gopls", "rust"]

  /** The language servers upstream ships a definition of. */
  const UPSTREAM_LSP_SERVERS := [
    "deno", "typescript", "vue", "eslint", "oxlint", "biome", "gopls", "ruby-lsp", "ty", "pyright",
    "elixir-ls", "zls", "csharp", "razor", "fsharp", "sourcekit-lsp", "rust", "clangd", "svelte", "astro",
    "jdtls", "kotlin-ls", "yaml-ls", "lua-ls", "php intelephense", "prisma", "dart", "ocaml-lsp", "bash",
    "terraform", "texlab", "dockerfile", "gleam", "clojure-lsp", "nixd", "tinymist",
    "haskell-language-server", "julials"]

  const LSP_ORDER := [COMMAND, EXTENSIONS, DISABLED, "env", "initialization"]

  function LspKey(at: Place, entry: Entry): Effect {
    var child, key, value := at.Child(entry.key), entry.key, entry.value;
    if key == COMMAND then Try(key, Program(child, value))
    else if key == EXTENSIONS then Try(key, Texts(child, value))
    else if key == DISABLED then Set(key, Flag(child, value))
    else if key == "env" then Set(key, TextMap(child, value))
    else if key == "initialization" then Set(key, Carry(child, value))
    else Skip(child, UnknownKey)
  }

  function LspField(at: Place): Field {
    (before, entry) => LspKey(at, entry)
  }

  predicate StandsAlone(entry: Json) {
    Get(entry, COMMAND).Some? && Get(entry, EXTENSIONS).Some?
  }

  /** Why an enabled server with these slots could not be started. */
  function LspMissing(name: string, writes: map<string, Option<Json>>): Option<Reason> {
    if Held(writes, DISABLED) == Some(Bool(true)) then None
    else if Held(writes, COMMAND).None? || (Held(writes, EXTENSIONS).None? && name !in BUILTIN_IDS) then Some(Malformed)
    else None
  }

  function LspOf(at: Place, name: string, value: Json): Carried {
    if name !in BUILTIN_IDS && name in UPSTREAM_LSP_SERVERS && !StandsAlone(value)
    then Carried(None, [Skipped(at.from, Unsupported)])
    else if !value.Object? then Mistaken(at)
    else
      var all := Walk(LspField(at), false, value.entries);
      var refused := if all.refused.None? then LspMissing(name, all.writes) else all.refused;
      Settled(at, refused, all.rows, Object(Present(LSP_ORDER, all.writes)))
  }

  lemma LspSlots(at: Place, entry: Entry)
    ensures SlotsIn(LspKey(at, entry), LSP_ORDER)
  {
    assert LSP_ORDER[0] == COMMAND && LSP_ORDER[1] == EXTENSIONS && LSP_ORDER[2] == DISABLED
        && LSP_ORDER[3] == "env" && LSP_ORDER[4] == "initialization";
  }

  lemma LspKeyPlain(at: Place, whole: Json, i: nat, document: Option<Json>)
    requires whole.Object? && WellFormed(whole) && i < |whole.entries|
    ensures PlainKey(LspKey(at, whole.entries[i]), at, whole, i, document)
    ensures SlotsIn(LspKey(at, whole.entries[i]), LSP_ORDER)
  {
    var key, value := whole.entries[i].key, whole.entries[i].value;
    var child := at.Child(key);
    LspSlots(at, whole.entries[i]);
    if key == COMMAND || key == EXTENSIONS {
      TextsTold(child, value);
      TryPlain(Program(child, value), at, whole, i, document);
      TryPlain(Texts(child, value), at, whole, i, document);
    } else {
      SimpleTold(child, value);
      CarryTold(child, value);
      SetPlain(TextMap(child, value), at, whole, i, document);
      SetPlain(Flag(child, value), at, whole, i, document);
      SetPlain(Carry(child, value), at, whole, i, document);
      SkipPlain(UnknownKey, at, whole, i, document);
    }
  }

  lemma LspTold(at: Place, name: string, value: Json)
    requires WellFormed(value)
    ensures Told(LspOf(at, name, value), at, value)
  {
    if (name !in BUILTIN_IDS && name in UPSTREAM_LSP_SERVERS && !StandsAlone(value)) || !value.Object? {
      OneRowTold(LspOf(at, name, value), at, value);
      return;
    }
    var field, entries := LspField(at), value.entries;
    var all := Walk(field, false, entries);
    var document := Object(Present(LSP_ORDER, all.writes));
    assert entries[..|entries|] == entries;
    forall i | 0 <= i < |entries|
      ensures PlainKey(field(entries[..i], entries[i]), at, value, i, Some(document))
      ensures SlotsIn(field(entries[..i], entries[i]), LSP_ORDER)
    {
      LspKeyPlain(at, value, i, Some(document));
    }
    PlainWalkTold(field, false, at, value, Some(document));
    WalkSlotsIn(field, false, entries, LSP_ORDER, |entries|);
    PresentObject(LSP_ORDER, all.writes);
    var refused := if all.refused.None? then LspMissing(name, all.writes) else all.refused;
    SettledTold(at, refused, all.rows, document, value);
  }

  lemma PresentObject(order: seq<string>, writes: map<string, Option<Json>>)
    requires forall slot <- writes.Keys :: writes[slot].Some? ==> slot in order
    ensures Delivers(writes, Some(Object(Present(order, writes))))
  {
    PresentDelivers(order, writes);
  }

  // Providers.

  const API_KEY := "apiKey"

  const PROVIDER_ORDER := [DIALECT, BASE_URL, HEADERS]

  function Dialect(at: Place, value: Json): Tried {
    if !value.Str? then Tried(None, [], Some(Malformed))
    else match Wire(value.text)
      case None => Tried(None, [], Some(Unsupported))
      case Some(spelled) => Tried(Some(Str(spelled)), [Mapped(at.from, at.to)], None)
  }

  /** One key of `options`, whose value lands on the entry under the name given here. */
  function OptionKey(build: Build, at: Place, entry: Entry): Effect {
    var from := at.from + [Key(OPTIONS), Key(entry.key)];
    if entry.key == API_KEY then Effect(map[], [Skipped(from, Credential)], None)
    else if entry.key == ENDPOINT || entry.key == UPSTREAM_URL then
      Try(entry.key, Endpoint(Place(from, at.to + [Key(BASE_URL)]), entry.value, build.reachable))
    else if entry.key == HEADERS then Set(entry.key, TextMap(Place(from, at.to + [Key(HEADERS)]), entry.value))
    else Effect(map[], [Skipped(from, Unsupported)], None)
  }

  function OptionField(build: Build, at: Place): Field {
    (before, entry) => OptionKey(build, at, entry)
  }

  /** The slots of the entry that its options fill; `endpoint` outranks `baseURL`. */
  function OptionSlots(writes: map<string, Option<Json>>): map<string, Option<Json>> {
    var endpoint := Held(writes, ENDPOINT);
    var url := if endpoint.Some? then endpoint else Held(writes, UPSTREAM_URL);
    (if HEADERS in writes then map[HEADERS := writes[HEADERS]] else map[]) + map[BASE_URL := url]
  }

  function OptionsOf(build: Build, at: Place, value: Json): Effect {
    var from := at.from + [Key(OPTIONS)];
    if !value.Object? then Effect(map[], [Skipped(from, Malformed)], None)
    else
      var all := Walk(OptionField(build, at), true, value.entries);
      Effect(OptionSlots(all.writes), [Mapped(from, at.to)] + all.rows, all.refused)
  }

  function ProviderKey(build: Build, at: Place, entry: Entry): Effect {
    var child := at.Child(entry.key);
    if entry.key == NPM then Try(DIALECT, Dialect(Place(child.from, at.to + [Key(DIALECT)]), entry.value))
    else if entry.key == OPTIONS then OptionsOf(build, at, entry.value)
    else Skip(child, Catalog)
  }

  function ProviderField(build: Build, at: Place): Field {
    (before, entry) => ProviderKey(build, at, entry)
  }

  function ProviderMissing(writes: map<string, Option<Json>>): Option<Reason> {
    if Held(writes, DIALECT).None? || Held(writes, BASE_URL).None? then Some(Unsupported) else None
  }

  /** The first refusal stands. */
  function ProviderOf(build: Build, at: Place, id: string, value: Json): Carried {
    if !value.Object? then Mistaken(at)
    else
      var all := Walk(ProviderField(build, at), true, value.entries);
      var met := if id in build.shipped then Some(Refused) else all.refused;
      var refused := if met.None? then ProviderMissing(all.writes) else met;
      Settled(at, refused, all.rows, Object(Present(PROVIDER_ORDER, all.writes)))
  }

  function ProviderOwned(): Owners {
    slot => if slot == DIALECT then {NPM} else if slot == BASE_URL || slot == HEADERS then {OPTIONS} else {slot}
  }

  /** A row that says an option landed says what becomes of that option. */
  ghost predicate OnEntry(row: Row, at: Place, source: Json, document: Json) {
    var n := |at.from|;
    row.Mapped? ==>
      && |row.from| == n + 2 && row.from[..n] == at.from && row.from[n] == Key(OPTIONS) && row.from[n + 1].Key?
      && Beneath(at.to, row.to) && OptionBecomes(source, document, row.from[n + 1].key, row.to[|at.to|..])
  }

  lemma OnEntryHonest(row: Row, at: Place, source: Json, document: Json)
    requires Sourced(row, at, source) && OnEntry(row, at, source, document)
    ensures Honest(row, at, source, Some(document))
  {
    if row.Mapped? {
      assert |OPTIONS| == 7 && |TOOLS| == 5 && |BASE_URL| == 8 && HEADERS[0] == 'h' && MODE[0] == 'm';
    }
  }

  lemma OptionKeySourced(build: Build, at: Place, value: Json, i: nat)
    requires value.Object? && WellFormed(value) && i < |value.entries|
    ensures AllSourced(OptionKey(build, at, value.entries[i]).rows, Place(at.from + [Key(OPTIONS)], at.to), value)
    ensures OwnSlots(OptionKey(build, at, value.entries[i]), SelfOwned(), value.entries[..i], value.entries[i])
  {
    var key, child := value.entries[i].key, value.entries[i].value;
    var inner := Place(at.from + [Key(OPTIONS)], at.to);
    var from := at.from + [Key(OPTIONS), Key(key)];
    assert from == inner.from + [Key(key)];
    NotYet(value.entries, i);
    SkipTold(key, Credential, inner, value, child, None);
    SkipTold(key, Unsupported, inner, value, child, None);
    assert inner.Child(key).from == from;
    var url, headers := Place(from, at.to + [Key(BASE_URL)]), Place(from, at.to + [Key(HEADERS)]);
    EndpointTold(url, child, build.reachable);
    SourcedOfChild(Endpoint(url, child, build.reachable).rows, from, url.to, inner, key, value, child);
    TextMapTold(headers, child);
    SourcedWhenTold(TextMap(headers, child), headers, child);
    SourcedOfChild(TextMap(headers, child).rows, from, headers.to, inner, key, value, child);
  }

  lemma TextsAside(at: Place, entries: seq<Entry>)
    ensures forall row <- KeptTexts(at, entries).1 :: row.Skipped?
  {}

  lemma TextMapPrunes(at: Place, value: Json)
    requires WellFormed(value) && TextMap(at, value).value.Some?
    ensures Prunes(value, TextMap(at, value).value.value)
  {
    var carried := TextMap(at, value);
    var own := carried.rows[|carried.rows| - 1];
    TextMapTold(at, value);
    assert Honest(own, at, value, carried.value);
    assert own.from[|at.from|..] == [] && own.to[|at.to|..] == [];
  }

  lemma OptionKeyOnEntry(build: Build, at: Place, source: Json, entry: Entry, document: Json)
    requires OptionKey(build, at, entry).refused.None? && WellFormed(entry.value)
    requires Get(source, OPTIONS).Some? && Get(Get(source, OPTIONS).value, entry.key) == Some(entry.value)
    requires entry.key == ENDPOINT || entry.key == UPSTREAM_URL ==>
             Get(document, BASE_URL) == Address(Get(source, OPTIONS).value)
    requires entry.key == HEADERS && OptionKey(build, at, entry).writes[HEADERS].Some? ==>
               Get(document, HEADERS) == OptionKey(build, at, entry).writes[HEADERS]
    ensures forall row <- OptionKey(build, at, entry).rows :: OnEntry(row, at, source, document)
  {
    var from := at.from + [Key(OPTIONS), Key(entry.key)];
    assert HEADERS[0] == 'h' && API_KEY[0] == 'a' && ENDPOINT[0] == 'e' && UPSTREAM_URL[0] == 'b';
    assert (at.to + [Key(BASE_URL)])[|at.to|..] == [Key(BASE_URL)]
        && (at.to + [Key(HEADERS)])[|at.to|..] == [Key(HEADERS)];
    if entry.key == HEADERS && entry.value.Object? {
      TextsAside(Place(from, at.to + [Key(HEADERS)]), entry.value.entries);
      TextMapPrunes(Place(from, at.to + [Key(HEADERS)]), entry.value);
    } else if entry.key == ENDPOINT || entry.key == UPSTREAM_URL {
      EndpointCarries(Place(from, at.to + [Key(BASE_URL)]), entry.value, build.reachable);
    }
  }

  lemma OptionsOwn(build: Build, at: Place, value: Json)
    requires WellFormed(value) && value.Object?
    ensures AllOwnSlots(OptionField(build, at), SelfOwned(), value.entries)
    ensures AllSourced(Walk(OptionField(build, at), true, value.entries).rows, Place(at.from + [Key(OPTIONS)], at.to),
                       value)
  {
    var field, entries, inner := OptionField(build, at), value.entries, Place(at.from + [Key(OPTIONS)], at.to);
    assert entries[..|entries|] == entries;
    forall i | 0 <= i < |entries|
      ensures OwnSlots(field(entries[..i], entries[i]), SelfOwned(), entries[..i], entries[i])
      ensures EachRow(field(entries[..i], entries[i]).rows, row => Sourced(row, inner, value))
    {
      OptionKeySourced(build, at, value, i);
    }
    WalkRows(field, true, entries, |entries|, row => Sourced(row, inner, value));
  }

  /** Every option's row says what becomes of it in an entry that holds what the options filled. */
  lemma OptionsOnEntry(build: Build, at: Place, source: Json, value: Json, document: Json)
    requires Get(source, OPTIONS) == Some(value) && WellFormed(value) && value.Object?
    requires OptionsOf(build, at, value).refused.None? && Delivers(OptionsOf(build, at, value).writes, Some(document))
    ensures EachRow(Walk(OptionField(build, at), true, value.entries).rows, row => OnEntry(row, at, source, document))
  {
    var field, entries := OptionField(build, at), value.entries;
    assert entries[..|entries|] == entries;
    OptionsOwn(build, at, value);
    forall i | 0 <= i < |entries|
      ensures EachRow(field(entries[..i], entries[i]).rows, row => OnEntry(row, at, source, document))
    {
      WalkRefusal(field, true, entries, |entries|, i);
      WritesStay(field, true, SelfOwned(), entries, |entries|, i);
      NotYet(entries, i);
      OptionDelivered(build, at, value, entries[i], document);
      OptionKeyOnEntry(build, at, source, entries[i], document);
    }
    WalkRows(field, true, entries, |entries|, row => OnEntry(row, at, source, document));
  }

  /** What the options wrote is honest about an entry that holds what they filled. */
  lemma OptionsSound(build: Build, at: Place, source: Json, value: Json, document: Json)
    requires Get(source, OPTIONS) == Some(value) && WellFormed(value) && document.Object?
    ensures PartTold(OptionsOf(build, at, value), at, source, OPTIONS, value, Some(document))
  {
    var effect, from := OptionsOf(build, at, value), at.from + [Key(OPTIONS)];
    assert [Key(OPTIONS)][1..] == [] && from[|at.from|..] == [Key(OPTIONS)];
    assert At(source, [Key(OPTIONS)]) == Some(value);
    assert effect.rows[0].from == from;
    if value.Object? {
      var rows := Walk(OptionField(build, at), true, value.entries).rows;
      OptionsOwn(build, at, value);
      SourcedOfChild(rows, from, at.to, at, OPTIONS, source, value);
      if effect.refused.None? && Delivers(effect.writes, Some(document)) {
        OptionsOnEntry(build, at, source, value, document);
        OptionsHonest(at, source, document, from, rows);
      }
    }
  }

  lemma OptionDelivered(build: Build, at: Place, value: Json, entry: Entry, document: Json)
    requires WellFormed(value) && value.Object? && OptionsOf(build, at, value).refused.None?
    requires OptionKey(build, at, entry).refused.None? && Get(value, entry.key) == Some(entry.value)
    requires var writes := Walk(OptionField(build, at), true, value.entries).writes;
             && Delivers(OptionSlots(writes), Some(document))
             && forall slot <- OptionKey(build, at, entry).writes.Keys ::
                Held(writes, slot) == OptionKey(build, at, entry).writes[slot]
    ensures entry.key == ENDPOINT || entry.key == UPSTREAM_URL ==> Get(document, BASE_URL) == Address(value)
    ensures entry.key == HEADERS && OptionKey(build, at, entry).writes[HEADERS].Some? ==>
              Get(document, HEADERS) == OptionKey(build, at, entry).writes[HEADERS]
  {
    var slots, part := OptionSlots(Walk(OptionField(build, at), true, value.entries).writes),
      OptionKey(build, at, entry).writes;
    assert HEADERS[0] == 'h' && API_KEY[0] == 'a' && ENDPOINT[0] == 'e' && UPSTREAM_URL[0] == 'b' && BASE_URL[0] == 'b'
        && |BASE_URL| == 8;
    assert BASE_URL in slots.Keys;
    OptionsFill(build, at, value, ENDPOINT);
    OptionsFill(build, at, value, UPSTREAM_URL);
    assert slots[BASE_URL] == Address(value);
    if entry.key == HEADERS {
      assert HEADERS in part.Keys;
      if part[HEADERS].Some? {
        assert HEADERS in slots.Keys && slots[HEADERS] == part[HEADERS];
      }
    }
  }

  lemma OptionsHonest(at: Place, source: Json, document: Json, from: Path, rows: seq<Row>)
    requires from == at.from + [Key(OPTIONS)] && Sourced(Mapped(from, at.to), at, source) && document.Object?
    requires AllSourced(rows, at, source) && EachRow(rows, row => OnEntry(row, at, source, document))
    ensures AllHonest([Mapped(from, at.to)] + rows, at, source, Some(document))
  {
    forall i | 0 <= i < |rows| ensures Honest(rows[i], at, source, Some(document)) {
      assert OnEntry(rows[i], at, source, document);
      OnEntryHonest(rows[i], at, source, document);
    }
    assert at.to[|at.to|..] == [] && from[|at.from|..] == [Key(OPTIONS)];
    AtOne(source, [Key(OPTIONS)]);
    assert Honest(Mapped(from, at.to), at, source, Some(document));
    AllHonestBoth([Mapped(from, at.to)], rows, at, source, Some(document));
  }

  lemma DialectTold(at: Place, source: Json, value: Json, document: Option<Json>)
    requires Get(source, NPM) == Some(value)
    ensures PartTold(Try(DIALECT, Dialect(Place(at.from + [Key(NPM)], at.to + [Key(DIALECT)]), value)), at, source, NPM,
                     value, document)
  {
    var from, to := at.from + [Key(NPM)], at.to + [Key(DIALECT)];
    var effect := Try(DIALECT, Dialect(Place(from, to), value));
    if effect.refused.None? {
      assert [Key(NPM)][1..] == [] && from[|at.from|..] == [Key(NPM)] && At(source, [Key(NPM)]) == Some(value);
      assert effect.rows[0].from == from;
      if Delivers(effect.writes, document) {
        assert DIALECT in effect.writes.Keys;
        assert [Key(DIALECT)][1..] == [] && to[|at.to|..] == [Key(DIALECT)];
        assert At(document.value, [Key(DIALECT)]) == effect.writes[DIALECT];
        assert |NPM| == 3 && |DIALECT| == 7;
      }
    }
  }

  lemma ProviderKeyTold(build: Build, at: Place, whole: Json, i: nat, document: Json)
    requires document.Object? && whole.Object? && WellFormed(whole) && i < |whole.entries|
    ensures var entry := whole.entries[i];
            PartTold(ProviderKey(build, at, entry), at, whole, entry.key, entry.value, Some(document))
    ensures SlotsIn(ProviderKey(build, at, whole.entries[i]), PROVIDER_ORDER)
    ensures OwnSlots(ProviderKey(build, at, whole.entries[i]), ProviderOwned(), whole.entries[..i], whole.entries[i])
  {
    var key, value := whole.entries[i].key, whole.entries[i].value;
    NotYet(whole.entries, i);
    if key == NPM {
      DialectTold(at, whole, value, Some(document));
    } else if key == OPTIONS {
      OptionsSound(build, at, whole, value, document);
    } else {
      SkipTold(key, Catalog, at, whole, value, Some(document));
    }
    ProviderOwns(build, at, whole.entries, i);
  }

  lemma ProviderOwns(build: Build, at: Place, entries: seq<Entry>, i: nat)
    requires i < |entries| && !Has(entries[..i], entries[i].key)
    ensures SlotsIn(ProviderKey(build, at, entries[i]), PROVIDER_ORDER)
    ensures OwnSlots(ProviderKey(build, at, entries[i]), ProviderOwned(), entries[..i], entries[i])
  {
    assert PROVIDER_ORDER[0] == DIALECT && PROVIDER_ORDER[1] == BASE_URL && PROVIDER_ORDER[2] == HEADERS;
    assert |DIALECT| == 7 && |BASE_URL| == 8 && |HEADERS| == 7 && DIALECT[0] == 'd' && HEADERS[0] == 'h';
  }

  lemma ProviderOwnsAll(build: Build, at: Place, entries: seq<Entry>)
    requires UniqueKeys(entries)
    ensures AllOwnSlots(ProviderField(build, at), ProviderOwned(), entries)
  {
    forall i | 0 <= i < |entries|
      ensures OwnSlots(ProviderField(build, at)(entries[..i], entries[i]), ProviderOwned(), entries[..i], entries[i])
    {
      NotYet(entries, i);
      ProviderOwns(build, at, entries, i);
    }
  }

  lemma ProviderTold(build: Build, at: Place, id: string, value: Json)
    requires WellFormed(value)
    ensures Told(ProviderOf(build, at, id, value), at, value)
  {
    if !value.Object? {
      OneRowTold(ProviderOf(build, at, id, value), at, value);
      return;
    }
    var field, entries := ProviderField(build, at), value.entries;
    var all := Walk(field, true, entries);
    var document := Object(Present(PROVIDER_ORDER, all.writes));
    assert entries[..|entries|] == entries;
    forall i | 0 <= i < |entries|
      ensures PartTold(field(entries[..i], entries[i]), at, value, entries[i].key, entries[i].value, Some(document))
      ensures SlotsIn(field(entries[..i], entries[i]), PROVIDER_ORDER)
      ensures OwnSlots(field(entries[..i], entries[i]), ProviderOwned(), entries[..i], entries[i])
    {
      ProviderKeyTold(build, at, value, i, document);
    }
    WalkSound(field, true, ProviderOwned(), entries, at, value, Some(document));
    WalkSlotsIn(field, true, entries, PROVIDER_ORDER, |entries|);
    PresentObject(PROVIDER_ORDER, all.writes);
    if all.refused.None? {
      forall i | 0 <= i < |entries| ensures Accounted(all.rows, at.from + [Key(entries[i].key)], entries[i].value) {
        WalkRefusal(field, true, entries, |entries|, i);
        WalkIncludes(field, true, entries, i, at.from + [Key(entries[i].key)], entries[i].value);
      }
    }
    var met := if id in build.shipped then Some(Refused) else all.refused;
    var refused := if met.None? then ProviderMissing(all.writes) else met;
    SettledTold(at, refused, all.rows, document, value);
  }

  // What a settled entry may say, and what a provider's entry holds.

  /** The rows of an entry that was left out: its own, then nothing but the keys that never travel. */
  predicate OnlyLeftOut(rows: seq<Row>, at: Place) {
    && rows != [] && rows[0].Skipped? && rows[0].from == at.from
    && forall i :: 1 <= i < |rows| ==> rows[i].Skipped? && rows[i].reason == Credential
  }

  lemma SettledLeavesOut(at: Place, refused: Option<Reason>, rows: seq<Row>, document: Json)
    requires refused.Some?
    ensures OnlyLeftOut(Settled(at, refused, rows, document).rows, at)
  {
    CredentialsOnly(rows);
    var settled := Settled(at, refused, rows, document).rows;
    forall i | 1 <= i < |settled| ensures settled[i].Skipped? && settled[i].reason == Credential {
      assert settled[i] == Credentials(rows)[i - 1];
    }
  }

  /** A refused service claims nothing: no row says any of its keys landed. */
  lemma RefusedClaimsNothing(build: Build, at: Place, name: string, value: Json)
    ensures ServerOf(build, at, value).value.None? ==> OnlyLeftOut(ServerOf(build, at, value).rows, at)
    ensures LspOf(at, name, value).value.None? ==> OnlyLeftOut(LspOf(at, name, value).rows, at)
    ensures ProviderOf(build, at, name, value).value.None? ==> OnlyLeftOut(ProviderOf(build, at, name, value).rows, at)
  {
    if ServerOf(build, at, value).value.None? {
      ServerClaimsNothing(build, at, value);
    }
    if LspOf(at, name, value).value.None? {
      LspClaimsNothing(at, name, value);
    }
    if ProviderOf(build, at, name, value).value.None? {
      ProviderClaimsNothing(build, at, name, value);
    }
  }

  lemma ServerClaimsNothing(build: Build, at: Place, value: Json)
    requires ServerOf(build, at, value).value.None?
    ensures OnlyLeftOut(ServerOf(build, at, value).rows, at)
  {
    if value.Object? && KindOf(value) in [LOCAL, REMOTE] {
      var local := KindOf(value) == LOCAL;
      var all := Walk(ServerField(build, at, local), false, value.entries);
      var missing := Held(all.writes, if local then COMMAND else URL).None?;
      SettledLeavesOut(at, if all.refused.None? && missing then Some(Malformed) else all.refused, all.rows,
                       Object([Entry(TYPE, Str(KindOf(value)))] + Present(SERVER_ORDER, all.writes)));
    }
  }

  lemma LspClaimsNothing(at: Place, name: string, value: Json)
    requires LspOf(at, name, value).value.None?
    ensures OnlyLeftOut(LspOf(at, name, value).rows, at)
  {
    if value.Object? && !(name !in BUILTIN_IDS && name in UPSTREAM_LSP_SERVERS && !StandsAlone(value)) {
      var all := Walk(LspField(at), false, value.entries);
      SettledLeavesOut(at, if all.refused.None? then LspMissing(name, all.writes) else all.refused, all.rows,
                       Object(Present(LSP_ORDER, all.writes)));
    }
  }

  lemma ProviderClaimsNothing(build: Build, at: Place, id: string, value: Json)
    requires ProviderOf(build, at, id, value).value.None?
    ensures OnlyLeftOut(ProviderOf(build, at, id, value).rows, at)
  {
    if value.Object? {
      var all := Walk(ProviderField(build, at), true, value.entries);
      var met := if id in build.shipped then Some(Refused) else all.refused;
      SettledLeavesOut(at, if met.None? then ProviderMissing(all.writes) else met, all.rows,
                       Object(Present(PROVIDER_ORDER, all.writes)));
    }
  }

  lemma KeptThroughWalk(field: Field, firstRefusal: bool, entries: seq<Entry>, n: nat, i: nat, row: Row)
    requires i < n <= |entries| && row in field(entries[..i], entries[i]).rows
    ensures row in Walk(field, firstRefusal, entries[..n]).rows
    decreases n
  {
    assert entries[..n][..n - 1] == entries[..n - 1];
    if i < n - 1 {
      KeptThroughWalk(field, firstRefusal, entries, n - 1, i, row);
    }
  }

  /** An API key has its row whatever became of the entry it was in. */
  lemma CredentialAlwaysRowed(build: Build, at: Place, id: string, value: Json)
    requires WellFormed(value) && Get(value, OPTIONS).Some? && Get(Get(value, OPTIONS).value, API_KEY).Some?
    ensures Skipped(at.from + [Key(OPTIONS), Key(API_KEY)], Credential) in ProviderOf(build, at, id, value).rows
  {
    var row := Skipped(at.from + [Key(OPTIONS), Key(API_KEY)], Credential);
    var options := Get(value, OPTIONS).value;
    var i, j := IndexOf(value.entries, OPTIONS), IndexOf(options.entries, API_KEY);
    assert options.entries[..|options.entries|] == options.entries && value.entries[..|value.entries|] == value.entries;
    KeptThroughWalk(OptionField(build, at), true, options.entries, |options.entries|, j, row);
    assert |NPM| == 3 && |OPTIONS| == 7;
    assert row in OptionsOf(build, at, options).rows;
    KeptThroughWalk(ProviderField(build, at), true, value.entries, |value.entries|, i, row);
    CredentialsOnly(Walk(ProviderField(build, at), true, value.entries).rows);
  }

  lemma OptionsFill(build: Build, at: Place, value: Json, slot: string)
    requires WellFormed(value) && value.Object? && OptionsOf(build, at, value).refused.None?
    requires slot == ENDPOINT || slot == UPSTREAM_URL
    ensures Held(Walk(OptionField(build, at), true, value.entries).writes, slot) == Get(value, slot)
  {
    var field, entries := OptionField(build, at), value.entries;
    assert entries[..|entries|] == entries;
    OptionsOwn(build, at, value);
    assert HEADERS[0] == 'h' && API_KEY[0] == 'a' && ENDPOINT[0] == 'e' && UPSTREAM_URL[0] == 'b';
    var i := IndexOf(entries, slot);
    if i < |entries| {
      WritesStay(field, true, SelfOwned(), entries, |entries|, i);
      WalkRefusal(field, true, entries, |entries|, i);
      var url := Place(at.from + [Key(OPTIONS), Key(slot)], at.to + [Key(BASE_URL)]);
      EndpointTold(url, entries[i].value, build.reachable);
      EndpointCarries(url, entries[i].value, build.reachable);
      assert slot in field(entries[..i], entries[i]).writes.Keys;
    } else {
      WalkSlots(field, true, SelfOwned(), entries, |entries|);
    }
  }

  lemma EndpointCarries(at: Place, value: Json, reachable: string -> bool)
    ensures var tried := Endpoint(at, value, reachable);
            tried.refused.None? <==> value.Str? && !OnlyToken(value.text) && reachable(value.text)
    ensures Endpoint(at, value, reachable).refused.None? ==> Endpoint(at, value, reachable).value == Some(value)
  {
    if value.Str? {
      GuardRefusesTokens(value.text);
    }
  }

  /**
   * A provider that is carried speaks the wire its package names, at its `endpoint` if it has one and
   * otherwise at its `baseURL`; and it holds nothing beside those and the headers, so no key travels.
   */
  lemma ProviderHolds(build: Build, at: Place, id: string, value: Json)
    requires WellFormed(value) && ProviderOf(build, at, id, value).value.Some?
    ensures var entry := ProviderOf(build, at, id, value).value.value;
            var options := Get(value, OPTIONS);
            && id !in build.shipped
            && Get(value, NPM).Some? && Get(value, NPM).value.Str? && Wire(Get(value, NPM).value.text).Some?
            && Get(entry, DIALECT) == Some(Str(Wire(Get(value, NPM).value.text).value))
            && options.Some? && (Get(options.value, ENDPOINT).Some? || Get(options.value, UPSTREAM_URL).Some?)
            && Get(entry, BASE_URL) == Address(options.value)
            && entry.Object? && forall kept <- entry.entries :: kept.key in PROVIDER_ORDER
  {
    var all := Walk(ProviderField(build, at), true, value.entries);
    PresentFinds(PROVIDER_ORDER, all.writes, DIALECT);
    PresentFinds(PROVIDER_ORDER, all.writes, BASE_URL);
    assert PROVIDER_ORDER[0] == DIALECT && PROVIDER_ORDER[1] == BASE_URL && PROVIDER_ORDER[2] == HEADERS;
    assert |DIALECT| == 7 && |BASE_URL| == 8 && |HEADERS| == 7 && DIALECT[0] == 'd' && HEADERS[0] == 'h';
    PresentUnique(PROVIDER_ORDER, all.writes);
    DialectHeld(build, at, value);
    AddressHeld(build, at, value);
  }

  /** A carried provider that spells both addresses says of both that they landed, and holds the endpoint. */
  lemma BothAddressesRowed(build: Build, at: Place, id: string, value: Json)
    requires WellFormed(value) && ProviderOf(build, at, id, value).value.Some?
    requires Get2(value, OPTIONS, ENDPOINT).Some? && Get2(value, OPTIONS, UPSTREAM_URL).Some?
    ensures var landed := at.to + [Key(BASE_URL)];
            && Mapped(at.from + [Key(OPTIONS), Key(ENDPOINT)], landed) in ProviderOf(build, at, id, value).rows
            && Mapped(at.from + [Key(OPTIONS), Key(UPSTREAM_URL)], landed) in ProviderOf(build, at, id, value).rows
    ensures Get(ProviderOf(build, at, id, value).value.value, BASE_URL) == Get2(value, OPTIONS, ENDPOINT)
  {
    ProviderHolds(build, at, id, value);
    AddressRowed(build, at, id, value, ENDPOINT);
    AddressRowed(build, at, id, value, UPSTREAM_URL);
  }

  lemma OptionRowed(build: Build, at: Place, options: Json, slot: string)
    requires (slot == ENDPOINT || slot == UPSTREAM_URL) && Get(options, slot).Some?
    requires OptionsOf(build, at, options).refused.None?
    ensures Mapped(at.from + [Key(OPTIONS), Key(slot)], at.to + [Key(BASE_URL)]) in OptionsOf(build, at, options).rows
  {
    var row := Mapped(at.from + [Key(OPTIONS), Key(slot)], at.to + [Key(BASE_URL)]);
    var field, entries, j := OptionField(build, at), options.entries, IndexOf(options.entries, slot);
    assert entries[..|entries|] == entries;
    assert API_KEY[0] == 'a' && ENDPOINT[0] == 'e' && UPSTREAM_URL[0] == 'b';
    WalkRefusal(field, true, entries, |entries|, j);
    EndpointCarries(Place(row.from, row.to), entries[j].value, build.reachable);
    assert OptionKey(build, at, entries[j]).rows == [row];
    KeptThroughWalk(field, true, entries, |entries|, j, row);
  }

  lemma AddressRowed(build: Build, at: Place, id: string, value: Json, slot: string)
    requires WellFormed(value) && ProviderOf(build, at, id, value).value.Some?
    requires (slot == ENDPOINT || slot == UPSTREAM_URL) && Get2(value, OPTIONS, slot).Some?
    ensures Mapped(at.from + [Key(OPTIONS), Key(slot)], at.to + [Key(BASE_URL)])
            in ProviderOf(build, at, id, value).rows
  {
    var field, entries, i := ProviderField(build, at), value.entries, IndexOf(value.entries, OPTIONS);
    assert entries[..|entries|] == entries;
    OptionsAt(build, at, entries[..i], entries[i]);
    WalkRefusal(field, true, entries, |entries|, i);
    OptionRowed(build, at, entries[i].value, slot);
    KeptThroughWalk(field, true, entries, |entries|, i,
                    Mapped(at.from + [Key(OPTIONS), Key(slot)], at.to + [Key(BASE_URL)]));
  }

  lemma DialectHeld(build: Build, at: Place, value: Json)
    requires WellFormed(value) && value.Object?
    requires Walk(ProviderField(build, at), true, value.entries).refused.None?
    requires Held(Walk(ProviderField(build, at), true, value.entries).writes, DIALECT).Some?
    ensures Get(value, NPM).Some? && Get(value, NPM).value.Str? && Wire(Get(value, NPM).value.text).Some?
    ensures Held(Walk(ProviderField(build, at), true, value.entries).writes, DIALECT)
            == Some(Str(Wire(Get(value, NPM).value.text).value))
  {
    var field, entries := ProviderField(build, at), value.entries;
    assert entries[..|entries|] == entries;
    ProviderOwnsAll(build, at, entries);
    WalkSlots(field, true, ProviderOwned(), entries, |entries|);
    assert SomeOwner(ProviderOwned(), entries, DIALECT);
    var i := IndexOf(entries, NPM);
    assert i < |entries|;
    WritesStay(field, true, ProviderOwned(), entries, |entries|, i);
    WalkRefusal(field, true, entries, |entries|, i);
    assert DIALECT in field(entries[..i], entries[i]).writes.Keys;
  }

  lemma AddressHeld(build: Build, at: Place, value: Json)
    requires WellFormed(value) && value.Object?
    requires Walk(ProviderField(build, at), true, value.entries).refused.None?
    requires Held(Walk(ProviderField(build, at), true, value.entries).writes, BASE_URL).Some?
    ensures Get(value, OPTIONS).Some?
    ensures Held(Walk(ProviderField(build, at), true, value.entries).writes, BASE_URL)
            == Address(Get(value, OPTIONS).value)
  {
    var field, entries := ProviderField(build, at), value.entries;
    assert entries[..|entries|] == entries;
    ProviderOwnsAll(build, at, entries);
    WalkSlots(field, true, ProviderOwned(), entries, |entries|);
    OnlyOptionsOwnTheAddress(entries);
    var i := IndexOf(entries, OPTIONS);
    WalkRefusal(field, true, entries, |entries|, i);
    OptionsAt(build, at, entries[..i], entries[i]);
    if entries[i].value.Object? {
      AddressFrom(build, at, entries, i);
    } else {
      AddressNeedsOptions(build, at, entries, i);
    }
  }

  lemma OnlyOptionsOwnTheAddress(entries: seq<Entry>)
    ensures SomeOwner(ProviderOwned(), entries, BASE_URL) <==> Has(entries, OPTIONS)
  {
    assert |DIALECT| == 7 && |BASE_URL| == 8 && |HEADERS| == 7;
    assert ProviderOwned()(BASE_URL) == {OPTIONS};
  }

  lemma OptionsAt(build: Build, at: Place, before: seq<Entry>, entry: Entry)
    requires entry.key == OPTIONS
    ensures ProviderField(build, at)(before, entry) == OptionsOf(build, at, entry.value)
  {
    assert |NPM| == 3 && |OPTIONS| == 7;
  }

  lemma AddressFrom(build: Build, at: Place, entries: seq<Entry>, i: nat)
    requires i < |entries| && WellFormed(Object(entries)) && entries[i].key == OPTIONS && entries[i].value.Object?
    requires OptionsOf(build, at, entries[i].value).refused.None?
    requires AllOwnSlots(ProviderField(build, at), ProviderOwned(), entries)
    ensures Held(Walk(ProviderField(build, at), true, entries).writes, BASE_URL) == Address(entries[i].value)
  {
    var field, options := ProviderField(build, at), entries[i].value;
    assert entries[..|entries|] == entries;
    OptionsAt(build, at, entries[..i], entries[i]);
    WritesStay(field, true, ProviderOwned(), entries, |entries|, i);
    OptionsFill(build, at, options, ENDPOINT);
    OptionsFill(build, at, options, UPSTREAM_URL);
    assert |BASE_URL| == 8 && |HEADERS| == 7;
    assert BASE_URL in OptionSlots(Walk(OptionField(build, at), true, options.entries).writes).Keys;
  }

  lemma AddressNeedsOptions(build: Build, at: Place, entries: seq<Entry>, i: nat)
    requires i < |entries| && UniqueKeys(entries) && entries[i].key == OPTIONS && !entries[i].value.Object?
    ensures BASE_URL !in Walk(ProviderField(build, at), true, entries).writes
  {
    AddressOnlyFrom(build, at, entries, |entries|, i);
    assert entries[..|entries|] == entries;
  }

  lemma {:induction false} AddressOnlyFrom(build: Build, at: Place, entries: seq<Entry>, n: nat, i: nat)
    requires i < |entries| && UniqueKeys(entries) && entries[i].key == OPTIONS && !entries[i].value.Object?
             && n <= |entries|
    ensures BASE_URL !in Walk(ProviderField(build, at), true, entries[..n]).writes
  {
    if n > 0 {
      AddressOnlyFrom(build, at, entries, n - 1, i);
      assert entries[..n][..n - 1] == entries[..n - 1];
      NoAddress(build, at, entries[n - 1]);
    }
  }

  lemma NoAddress(build: Build, at: Place, entry: Entry)
    requires entry.key != OPTIONS || !entry.value.Object?
    ensures BASE_URL !in ProviderKey(build, at, entry).writes
  {
    assert |DIALECT| == 7 && |BASE_URL| == 8;
  }
}
