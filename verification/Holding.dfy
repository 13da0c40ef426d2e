/**
 * What an import makes of each kind of value and of each entry, told of what was spelled alone: when an entry
 * comes across, and what it then holds under every key it may have.
 */
module Holding {
  import opened Lists
  import opened Optional
  import opened JsonTree
  import opened Numbers
  import opened Tokens
  import opened Landing
  import opened Accounts
  import opened Guarding
  import opened PermissionFold
  import opened Walks
  import opened Fields
  import opened Entries
  import opened Services

  // Single values.

  /** A word, unless it is nothing but a token. */
  predicate IsWord(value: Json) {
    value.Str? && !OnlyToken(value.text)
  }

  function WordIn(spelled: Option<Json>): Option<Json> {
    if spelled.Some? && IsWord(spelled.value) then spelled else None
  }

  function FlagIn(spelled: Option<Json>): Option<Json> {
    if spelled.Some? && spelled.value.Bool? then spelled else None
  }

  /** A whole number above zero. */
  function CountIn(spelled: Option<Json>): Option<Json> {
    if spelled.Some? && spelled.value.Number? && ParseWhole(spelled.value.spelled).Some?
       && ParseWhole(spelled.value.spelled).value > 0 then spelled else None
  }

  /** A list of words and of nothing else. */
  predicate IsList(value: Json) {
    value.Array? && forall i :: 0 <= i < |value.elements| ==> IsWord(value.elements[i])
  }

  predicate IsProgram(value: Json) {
    IsList(value) && value != Array([])
  }

  predicate IsAddress(value: Json, build: Build) {
    IsWord(value) && build.reachable(value.text)
  }

  /** A map of words holds those of its entries that are words, and a map with none is still a map. */
  ghost predicate HoldsMap(held: Option<Json>, spelled: Option<Json>) {
    if spelled.None? || !spelled.value.Object? then held.None?
    else
      && held.Some? && held.value.Object?
      && forall name: string :: Get(held.value, name) == WordIn(Get(spelled.value, name))
  }

  /** A path to a file: neither an address nor a lone token. */
  predicate IsFile(value: Json) {
    IsWord(value) && !("http://" <= value.text) && !("https://" <= value.text)
  }

  function Files(elements: seq<Json>): seq<Json> {
    if elements == [] then [] else (if IsFile(elements[0]) then [elements[0]] else []) + Files(elements[1..])
  }

  /** The paths of a list that are files, in their order, where there are any. */
  function FilesIn(spelled: Option<Json>): Option<Json> {
    if spelled.Some? && spelled.value.Array? && Files(spelled.value.elements) != []
    then Some(Array(Files(spelled.value.elements)))
    else None
  }

  lemma WordRead(at: Place, value: Json)
    ensures Text(at, value).value == WordIn(Some(value))
  {
    if value.Str? {
      GuardRefusesTokens(value.text);
    }
  }

  lemma CountRead(at: Place, value: Json)
    ensures Positive(at, value).value == CountIn(Some(value)) && Flag(at, value).value == FlagIn(Some(value))
  {}

  lemma WordGuards(value: Json)
    ensures value.Str? ==> (Guard(value.text).Some? <==> IsWord(value))
  {
    if value.Str? {
      GuardRefusesTokens(value.text);
    }
  }

  lemma NoneBadExactly(elements: seq<Json>)
    ensures FirstBad(elements, 0).None? <==> IsList(Array(elements))
  {
    if FirstBad(elements, 0).Some? {
      SomeBad(elements, 0);
    } else {
      NoneBad(elements, 0);
    }
    forall j | 0 <= j < |elements| ensures Carryable(elements[j]) <==> IsWord(elements[j]) {
      WordGuards(elements[j]);
    }
  }

  lemma ListRead(at: Place, value: Json)
    ensures Texts(at, value).refused.None? <==> IsList(value)
    ensures Texts(at, value).value == if IsList(value) then Some(value) else None
    ensures Program(at, value).refused.None? <==> IsProgram(value)
    ensures Program(at, value).value == if IsProgram(value) then Some(value) else None
  {
    if value.Array? {
      NoneBadExactly(value.elements);
    }
  }

  lemma AddressRead(build: Build, at: Place, value: Json)
    ensures Endpoint(at, value, build.reachable).refused.None? <==> IsAddress(value, build)
    ensures Endpoint(at, value, build.reachable).value == if IsAddress(value, build) then Some(value) else None
  {
    EndpointCarries(at, value, build.reachable);
  }

  lemma {:induction false} WordsKept(at: Place, entries: seq<Entry>, name: string)
    requires UniqueKeys(entries)
    ensures Find(KeptTexts(at, entries).0, name) == WordIn(Find(entries, name))
  {
    if entries != [] {
      var n := |entries| - 1;
      WordsKept(at, entries[..n], name);
      assert entries == entries[..n] + [entries[n]];
      FindAppend(entries[..n], [entries[n]], name);
      NotYet(entries, n);
      if entries[n].value.Str? {
        GuardRefusesTokens(entries[n].value.text);
        InsertFinds(KeptTexts(at, entries[..n]).0, entries[n].key, entries[n].value, name);
      }
    }
  }

  lemma MapRead(at: Place, value: Json)
    requires WellFormed(value)
    ensures HoldsMap(TextMap(at, value).value, Some(value))
  {
    if value.Object? {
      forall name: string ensures Find(KeptTexts(at, value.entries).0, name) == WordIn(Find(value.entries, name)) {
        WordsKept(at, value.entries, name);
      }
    }
  }

  lemma {:induction false} FilesAppend(a: seq<Json>, b: seq<Json>)
    ensures Files(a + b) == Files(a) + Files(b)
  {
    if a == [] {
      assert a + b == b && Files(a) + Files(b) == Files(b);
    } else {
      assert (a + b)[0] == a[0] && (a + b)[1..] == a[1..] + b;
      FilesAppend(a[1..], b);
      Regroup(if IsFile(a[0]) then [a[0]] else [], Files(a[1..]), Files(b));
    }
  }

  lemma {:induction false} FilesKept(at: Place, elements: seq<Json>)
    ensures KeptInstructions(at, elements).0 == Files(elements)
  {
    if elements != [] {
      var n := |elements| - 1;
      FilesKept(at, elements[..n]);
      assert elements == elements[..n] + [elements[n]];
      FilesAppend(elements[..n], [elements[n]]);
      assert [elements[n]][1..] == [];
      if elements[n].Str? {
        GuardRefusesTokens(elements[n].text);
      }
    }
  }

  lemma FilesRead(at: Place, value: Json)
    ensures Instructions(at, value).value == FilesIn(Some(value))
  {
    if value.Array? {
      FilesKept(at, value.elements);
    }
  }

  // Commands.

  /** A command that comes across holds the words spelled for its four fields and nothing else. */
  lemma CommandHolds(at: Place, value: Json, key: string)
    requires WellFormed(value) && CommandOf(at, value).value.Some?
    ensures Get(CommandOf(at, value).value.value, key)
            == if key in ["template", "description", "agent", "model"] then WordIn(Get(value, key)) else None
  {
    var field, entries := CommandField(at), value.entries;
    forall i | 0 <= i < |entries|
      ensures OwnSlots(field(entries[..i], entries[i]), SelfOwned(), entries[..i], entries[i])
    {
      CommandKeyPlain(at, value, i, None);
    }
    assert COMMAND_ORDER == ["template", "description", "agent", "model"];
    PresentFinds(COMMAND_ORDER, Walk(field, false, entries).writes, key);
    SlotFrom(field, false, SelfOwned(), entries, key, key);
    var i := IndexOf(entries, key);
    if i < |entries| {
      WordRead(at.Child(key), entries[i].value);
    }
  }

  // Servers.

  /** What a server needs to come across: a program to start, or an address headers may be sent to. */
  ghost predicate ServerWhole(build: Build, value: Json) {
    || (Get(value, "type") == Some(Str("local")) && Get(value, "command").Some?
        && IsProgram(Get(value, "command").value))
    || (Get(value, "type") == Some(Str("remote")) && Get(value, "url").Some?
        && IsAddress(Get(value, "url").value, build))
  }

  /** The fields of a server of either kind. */
  ghost predicate ServerHas(value: Json, entry: Json) {
    var local := Get(value, "type") == Some(Str("local"));
    && Get(entry, "type") == Get(value, "type")
    && Get(entry, "command") == (if local then Get(value, "command") else None)
    && Get(entry, "url") == (if local then None else Get(value, "url"))
    && Get(entry, "cwd") == (if local then WordIn(Get(value, "cwd")) else None)
    && HoldsMap(Get(entry, "environment"), if local then Get(value, "environment") else None)
    && HoldsMap(Get(entry, "headers"), if local then None else Get(value, "headers"))
    && Get(entry, "enabled") == FlagIn(Get(value, "enabled"))
    && Get(entry, "timeout") == CountIn(Get(value, "timeout"))
  }

  /** What one key of a server leaves in its own slot. */
  function ServerSlot(build: Build, at: Place, local: bool, value: Json, key: string): Option<Json> {
    var spelled := Get(value, key);
    if spelled.None? then None else Held(ServerKey(build, at, local, Entry(key, spelled.value)).writes, key)
  }

  lemma ServerHeld(build: Build, at: Place, local: bool, value: Json, key: string)
    requires WellFormed(value) && value.Object?
    ensures Held(Walk(ServerField(build, at, local), false, value.entries).writes, key)
            == ServerSlot(build, at, local, value, key)
  {
    ServerOwnsAll(build, at, local, value);
    SlotFrom(ServerField(build, at, local), false, SelfOwned(), value.entries, key, key);
    var i := IndexOf(value.entries, key);
    assert i < |value.entries| ==> value.entries[i] == Entry(key, Get(value, key).value);
  }

  lemma ServerRefusal(build: Build, at: Place, local: bool, entry: Entry)
    ensures ServerKey(build, at, local, entry).refused.None?
            <==> (entry.key == "command" && local ==> IsProgram(entry.value))
                 && (entry.key == "url" && !local ==> IsAddress(entry.value, build))
  {
    ListRead(at.Child(entry.key), entry.value);
    AddressRead(build, at.Child(entry.key), entry.value);
  }

  lemma ServerWalkRefuses(build: Build, at: Place, local: bool, value: Json)
    requires WellFormed(value) && value.Object?
    ensures Walk(ServerField(build, at, local), false, value.entries).refused.None?
            <==> var key := if local then "command" else "url";
                 Get(value, key).Some? ==>
                   if local then IsProgram(Get(value, key).value) else IsAddress(Get(value, key).value, build)
  {
    var field, entries := ServerField(build, at, local), value.entries;
    var key := if local then "command" else "url";
    assert entries[..|entries|] == entries;
    WalkRefusesExactly(field, false, entries, |entries|);
    forall i | 0 <= i < |entries|
      ensures field(entries[..i], entries[i]).refused.None?
              <==> (entries[i].key == "command" && local ==> IsProgram(entries[i].value))
                   && (entries[i].key == "url" && !local ==> IsAddress(entries[i].value, build))
      ensures Get(value, entries[i].key) == Some(entries[i].value)
    {
      ServerRefusal(build, at, local, entries[i]);
      NotYet(entries, i);
    }
    var j := IndexOf(entries, key);
    assert j < |entries| ==> entries[j].key == key;
  }

  lemma KindIs(value: Json)
    ensures KindOf(value) == LOCAL <==> Get(value, "type") == Some(Str("local"))
    ensures KindOf(value) == REMOTE <==> Get(value, "type") == Some(Str("remote"))
  {
    var kind := Get(value, "type");
    assert |LOCAL| == 5 && |REMOTE| == 6;
    assert kind.Some? && kind.value.Str? ==> kind == Some(Str(kind.value.text));
  }

  /** What a server is started or reached by, in its slot. */
  lemma ServerNeed(build: Build, at: Place, local: bool, value: Json)
    requires WellFormed(value) && value.Object?
    ensures var key := if local then "command" else "url";
            && (ServerSlot(build, at, local, value, key).Some?
                <==> Get(value, key).Some?
                     && if local then IsProgram(Get(value, key).value) else IsAddress(Get(value, key).value, build))
            && (ServerSlot(build, at, local, value, key).Some? ==>
                ServerSlot(build, at, local, value, key) == Get(value, key))
  {
    var key := if local then "command" else "url";
    if Get(value, key).Some? {
      ListRead(at.Child(key), Get(value, key).value);
      AddressRead(build, at.Child(key), Get(value, key).value);
    }
  }

  /** A server comes across exactly when it is whole. */
  lemma ServerCarriedExactly(build: Build, at: Place, value: Json)
    requires WellFormed(value)
    ensures ServerOf(build, at, value).value.Some? <==> ServerWhole(build, value)
  {
    KindIs(value);
    if value.Object? && KindOf(value) in [LOCAL, REMOTE] {
      var local := KindOf(value) == LOCAL;
      ServerWalkRefuses(build, at, local, value);
      ServerHeld(build, at, local, value, if local then "command" else "url");
      ServerNeed(build, at, local, value);
    }
  }

  lemma CwdSlot(build: Build, at: Place, local: bool, value: Json)
    ensures ServerSlot(build, at, local, value, "cwd") == if local then WordIn(Get(value, "cwd")) else None
  {
    if Get(value, "cwd").Some? {
      WordRead(at.Child("cwd"), Get(value, "cwd").value);
    }
  }

  lemma EnabledSlot(build: Build, at: Place, local: bool, value: Json)
    ensures ServerSlot(build, at, local, value, "enabled") == FlagIn(Get(value, "enabled"))
  {}

  lemma TimeoutSlot(build: Build, at: Place, local: bool, value: Json)
    ensures ServerSlot(build, at, local, value, "timeout") == CountIn(Get(value, "timeout"))
  {}

  lemma OtherKindsSlot(build: Build, at: Place, local: bool, value: Json)
    ensures ServerSlot(build, at, local, value, if local then "url" else "command").None?
  {}

  lemma ServerMaps(build: Build, at: Place, local: bool, value: Json)
    requires WellFormed(value)
    ensures HoldsMap(ServerSlot(build, at, local, value, "environment"),
                     if local then Get(value, "environment") else None)
    ensures HoldsMap(ServerSlot(build, at, local, value, "headers"), if local then None else Get(value, "headers"))
  {
    if Get(value, "environment").Some? {
      MapRead(at.Child("environment"), Get(value, "environment").value);
    }
    if Get(value, "headers").Some? {
      MapRead(at.Child("headers"), Get(value, "headers").value);
    }
  }

  lemma ServerMade(build: Build, at: Place, value: Json)
    requires ServerOf(build, at, value).value.Some?
    ensures value.Object?
    ensures var writes := Walk(ServerField(build, at, KindOf(value) == LOCAL), false, value.entries).writes;
            ServerOf(build, at, value).value.value
            == Object([Entry(TYPE, Str(KindOf(value)))] + Present(SERVER_ORDER, writes))
  {}

  lemma ServerDocument(build: Build, at: Place, value: Json, key: string)
    requires WellFormed(value) && ServerOf(build, at, value).value.Some?
    ensures Get(ServerOf(build, at, value).value.value, key)
            == if key == TYPE then Some(Str(KindOf(value)))
               else if key in SERVER_ORDER then ServerSlot(build, at, KindOf(value) == LOCAL, value, key)
               else None
  {
    ServerMade(build, at, value);
    var local := KindOf(value) == LOCAL;
    var writes := Walk(ServerField(build, at, local), false, value.entries).writes;
    ServerHeld(build, at, local, value, key);
    PresentFinds(SERVER_ORDER, writes, key);
    TypeFirst(Str(KindOf(value)), Present(SERVER_ORDER, writes), key);
  }

  lemma TypeFirst(kind: Json, rest: seq<Entry>, key: string)
    ensures Find([Entry(TYPE, kind)] + rest, key) == if key == TYPE then Some(kind) else Find(rest, key)
  {
    FindAppend([Entry(TYPE, kind)], rest, key);
  }

  lemma ServerSlotAt(build: Build, at: Place, value: Json, n: nat)
    requires WellFormed(value) && ServerOf(build, at, value).value.Some? && n < |SERVER_ORDER|
    ensures Get(ServerOf(build, at, value).value.value, SERVER_ORDER[n])
            == ServerSlot(build, at, KindOf(value) == LOCAL, value, SERVER_ORDER[n])
  {
    ServerKeys();
    ServerDocument(build, at, value, SERVER_ORDER[n]);
  }

  lemma ServerKeys()
    ensures SERVER_ORDER == ["command", "url", "cwd", "environment", "headers", "enabled", "timeout"]
    ensures TYPE !in SERVER_ORDER
  {
    assert |TYPE| == 4 && |"timeout"| == 7 && |"url"| == 3 && |"cwd"| == 3 && |"command"| == 7
        && |"environment"| == 11 && |"headers"| == 7 && |"enabled"| == 7;
  }

  /** And a server that comes across holds what was spelled for the fields its kind has. */
  lemma ServerHolds(build: Build, at: Place, value: Json)
    requires WellFormed(value) && ServerOf(build, at, value).value.Some?
    ensures ServerHas(value, ServerOf(build, at, value).value.value)
  {
    var local := KindOf(value) == LOCAL;
    var entry := ServerOf(build, at, value).value.value;
    KindIs(value);
    ServerCarriedExactly(build, at, value);
    ServerNeed(build, at, local, value);
    CwdSlot(build, at, local, value);
    EnabledSlot(build, at, local, value);
    TimeoutSlot(build, at, local, value);
    OtherKindsSlot(build, at, local, value);
    ServerMaps(build, at, local, value);
    ServerKeys();
    ServerDocument(build, at, value, TYPE);
    ServerSlotAt(build, at, value, 0);
    ServerSlotAt(build, at, value, 1);
    ServerSlotAt(build, at, value, 2);
    ServerSlotAt(build, at, value, 3);
    ServerSlotAt(build, at, value, 4);
    ServerSlotAt(build, at, value, 5);
    ServerSlotAt(build, at, value, 6);
  }

  // Language servers.

  /** A list that is read, if it is spelled at all. */
  predicate ListIfAny(spelled: Option<Json>) {
    spelled.Some? ==> IsList(spelled.value)
  }

  /** What a language server needs: a program and its extensions, less what the build or being off supplies. */
  ghost predicate LspWhole(name: string, value: Json) {
    var command, extensions := Get(value, "command"), Get(value, "extensions");
    var shipped := name == "gopls" || name == "rust";
    && value.Object?
    && (command.Some? ==> IsProgram(command.value)) && (extensions.Some? ==> IsList(extensions.value))
    && (shipped || name !in UPSTREAM_LSP_SERVERS || (command.Some? && extensions.Some?))
    && (Get(value, "disabled") == Some(Bool(true)) || (command.Some? && (extensions.Some? || shipped)))
  }

  ghost predicate LspHas(value: Json, entry: Json) {
    && Get(entry, "command") == Get(value, "command")
    && Get(entry, "extensions") == Get(value, "extensions")
    && Get(entry, "disabled") == FlagIn(Get(value, "disabled"))
    && HoldsMap(Get(entry, "env"), Get(value, "env"))
    && Get(entry, "initialization") == ObjectIn(Get(value, "initialization"))
  }

  /** An object as it stands, less what has to be left out of it. */
  function ObjectIn(spelled: Option<Json>): Option<Json> {
    if spelled.Some? && spelled.value.Object? then GuardedOf([], spelled.value).value else None
  }

  lemma ObjectRead(at: Place, value: Json)
    ensures Carry(at, value).value == ObjectIn(Some(value))
  {
    GuardedAnywhere(at.from, [], value);
  }

  function LspSlot(at: Place, value: Json, key: string): Option<Json> {
    var spelled := Get(value, key);
    if spelled.None? then None else Held(LspKey(at, Entry(key, spelled.value)).writes, key)
  }

  lemma LspOwnsAll(at: Place, value: Json)
    requires WellFormed(value) && value.Object?
    ensures AllOwnSlots(LspField(at), SelfOwned(), value.entries)
  {
    var field, entries := LspField(at), value.entries;
    forall i | 0 <= i < |entries|
      ensures OwnSlots(field(entries[..i], entries[i]), SelfOwned(), entries[..i], entries[i])
    {
      LspKeyPlain(at, value, i, None);
    }
  }

  lemma LspHeld(at: Place, value: Json, key: string)
    requires WellFormed(value) && value.Object?
    ensures Held(Walk(LspField(at), false, value.entries).writes, key) == LspSlot(at, value, key)
  {
    LspOwnsAll(at, value);
    SlotFrom(LspField(at), false, SelfOwned(), value.entries, key, key);
    var i := IndexOf(value.entries, key);
    assert i < |value.entries| ==> value.entries[i] == Entry(key, Get(value, key).value);
  }

  lemma LspRefusal(at: Place, entry: Entry)
    ensures LspKey(at, entry).refused.None?
            <==> (entry.key == "command" ==> IsProgram(entry.value)) && (entry.key == "extensions" ==>
                  IsList(entry.value))
  {
    ListRead(at.Child(entry.key), entry.value);
    assert |COMMAND| == 7 && |EXTENSIONS| == 10;
  }

  lemma LspWalkRefuses(at: Place, value: Json)
    requires WellFormed(value) && value.Object?
    ensures Walk(LspField(at), false, value.entries).refused.None?
            <==> (Get(value, "command").Some? ==> IsProgram(Get(value, "command").value))
                 && (Get(value, "extensions").Some? ==> IsList(Get(value, "extensions").value))
  {
    var field, entries := LspField(at), value.entries;
    assert entries[..|entries|] == entries;
    WalkRefusesExactly(field, false, entries, |entries|);
    forall i | 0 <= i < |entries|
      ensures field(entries[..i], entries[i]).refused.None?
              <==> (entries[i].key == "command" ==> IsProgram(entries[i].value))
                   && (entries[i].key == "extensions" ==> IsList(entries[i].value))
      ensures Get(value, entries[i].key) == Some(entries[i].value)
    {
      LspRefusal(at, entries[i]);
      NotYet(entries, i);
    }
    var i, j := IndexOf(entries, "command"), IndexOf(entries, "extensions");
    assert i < |entries| ==> entries[i].key == "command";
    assert j < |entries| ==> entries[j].key == "extensions";
  }

  lemma LspListSlots(at: Place, value: Json)
    ensures LspSlot(at, value, "command")
            == if Get(value, "command").Some? && IsProgram(Get(value, "command").value) then Get(value, "command")
               else None
    ensures LspSlot(at, value, "extensions")
            == if Get(value, "extensions").Some? && IsList(Get(value, "extensions").value)
               then Get(value, "extensions") else None
  {
    assert |COMMAND| == 7 && |EXTENSIONS| == 10;
    if Get(value, "command").Some? {
      ListRead(at.Child("command"), Get(value, "command").value);
    }
    if Get(value, "extensions").Some? {
      ListRead(at.Child("extensions"), Get(value, "extensions").value);
    }
  }

  lemma LspOtherSlots(at: Place, value: Json)
    requires WellFormed(value)
    ensures LspSlot(at, value, "disabled") == FlagIn(Get(value, "disabled"))
    ensures HoldsMap(LspSlot(at, value, "env"), Get(value, "env"))
    ensures LspSlot(at, value, "initialization") == ObjectIn(Get(value, "initialization"))
  {
    assert |COMMAND| == 7 && |EXTENSIONS| == 10 && |DISABLED| == 8 && |"env"| == 3 && |"initialization"| == 14;
    if Get(value, "env").Some? {
      MapRead(at.Child("env"), Get(value, "env").value);
    }
    if Get(value, "initialization").Some? {
      ObjectRead(at.Child("initialization"), Get(value, "initialization").value);
    }
  }

  lemma ShippedNames(name: string)
    ensures name in BUILTIN_IDS <==> name == "gopls" || name == "rust"
  {
    assert BUILTIN_IDS == ["gopls", "rust"];
  }

  /** A language server comes across exactly when it is whole. */
  lemma LspCarriedExactly(at: Place, name: string, value: Json)
    requires WellFormed(value)
    ensures LspOf(at, name, value).value.Some? <==> LspWhole(name, value)
  {
    ShippedNames(name);
    if value.Object? {
      LspWalkRefuses(at, value);
      LspHeld(at, value, "command");
      LspHeld(at, value, "extensions");
      LspHeld(at, value, "disabled");
      LspListSlots(at, value);
      LspOtherSlots(at, value);
    }
  }

  lemma LspMade(at: Place, name: string, value: Json, key: string)
    requires WellFormed(value) && LspOf(at, name, value).value.Some? && key in LSP_ORDER
    ensures Get(LspOf(at, name, value).value.value, key) == LspSlot(at, value, key)
  {
    LspHeld(at, value, key);
    PresentFinds(LSP_ORDER, Walk(LspField(at), false, value.entries).writes, key);
  }

  /** And holds what was spelled for its five fields. */
  lemma LspHolds(at: Place, name: string, value: Json)
    requires WellFormed(value) && LspOf(at, name, value).value.Some?
    ensures LspHas(value, LspOf(at, name, value).value.value)
  {
    LspCarriedExactly(at, name, value);
    LspListSlots(at, value);
    LspOtherSlots(at, value);
    LspMade(at, name, value, LSP_ORDER[0]);
    LspMade(at, name, value, LSP_ORDER[1]);
    LspMade(at, name, value, LSP_ORDER[2]);
    LspMade(at, name, value, LSP_ORDER[3]);
    LspMade(at, name, value, LSP_ORDER[4]);
  }

  // Providers.

  /** The packages this build has a wire for. */
  predicate Speaks(package: string, wire: string) {
    || (package == "@ai-sdk/openai-compatible" && wire == "openai-chat-completions")
    || (package == "@ai-sdk/openai" && wire == "openai-responses")
    || (package == "@ai-sdk/anthropic" && wire == "anthropic-messages")
  }

  /** An address that is read, if it is spelled at all. */
  predicate AddressIfAny(spelled: Option<Json>, build: Build) {
    spelled.Some? ==> IsAddress(spelled.value, build)
  }

  /** What a provider needs: a name of its own, a package with a wire, and addresses that may all be reached, if any. */
  ghost predicate ProviderWhole(build: Build, id: string, value: Json) {
    var package, endpoint, url := Get(value, "npm"), Get2(value, "options", "endpoint"),
      Get2(value, "options", "baseURL");
    && value.Object? && id !in build.shipped
    && package.Some? && package.value.Str? && (exists wire :: Speaks(package.value.text, wire))
    && AddressIfAny(endpoint, build) && AddressIfAny(url, build) && (endpoint.Some? || url.Some?)
  }

  ghost predicate ProviderHas(value: Json, entry: Json) {
    var endpoint := Get2(value, "options", "endpoint");
    && Get(value, "npm").Some? && Get(value, "npm").value.Str?
    && Get(entry, "dialect").Some? && Get(entry, "dialect").value.Str?
    && Speaks(Get(value, "npm").value.text, Get(entry, "dialect").value.text)
    && Get(entry, "base_url") == (if endpoint.Some? then endpoint else Get2(value, "options", "baseURL"))
    && HoldsMap(Get(entry, "headers"), Get2(value, "options", "headers"))
  }

  lemma WireSpeaks(package: string, wire: string)
    ensures Wire(package) == Some(wire) <==> Speaks(package, wire)
  {
    assert |"@ai-sdk/openai-compatible"| == 25 && |"@ai-sdk/openai"| == 14 && |"@ai-sdk/anthropic"| == 17;
  }

  lemma OptionRefusal(build: Build, at: Place, entry: Entry)
    ensures OptionKey(build, at, entry).refused.None?
            <==> (entry.key == "endpoint" || entry.key == "baseURL" ==> IsAddress(entry.value, build))
  {
    var from := at.from + [Key(OPTIONS), Key(entry.key)];
    assert |API_KEY| == 6 && |ENDPOINT| == 8 && |UPSTREAM_URL| == 7;
    AddressRead(build, Place(from, at.to + [Key(BASE_URL)]), entry.value);
  }

  lemma OptionsRefuse(build: Build, at: Place, value: Json)
    requires WellFormed(value)
    ensures OptionsOf(build, at, value).refused.None?
            <==> AddressIfAny(Get(value, "endpoint"), build) && AddressIfAny(Get(value, "baseURL"), build)
  {
    if value.Object? {
      var field, entries := OptionField(build, at), value.entries;
      assert entries[..|entries|] == entries;
      WalkRefusesExactly(field, true, entries, |entries|);
      forall i | 0 <= i < |entries|
        ensures field(entries[..i], entries[i]).refused.None?
                <==> (entries[i].key == "endpoint" || entries[i].key == "baseURL" ==>
                      IsAddress(entries[i].value, build))
        ensures Get(value, entries[i].key) == Some(entries[i].value)
      {
        OptionRefusal(build, at, entries[i]);
        NotYet(entries, i);
      }
      var i, j := IndexOf(entries, "endpoint"), IndexOf(entries, "baseURL");
      assert i < |entries| ==> entries[i].key == "endpoint";
      assert j < |entries| ==> entries[j].key == "baseURL";
    }
  }

  lemma ProviderRefusal(build: Build, at: Place, entry: Entry)
    requires WellFormed(entry.value)
    ensures ProviderKey(build, at, entry).refused.None?
            <==> (entry.key == "npm" ==> entry.value.Str? && Wire(entry.value.text).Some?)
                 && (entry.key == "options" ==>
                     AddressIfAny(Get(entry.value, "endpoint"), build)
                     && AddressIfAny(Get(entry.value, "baseURL"), build))
  {
    assert |NPM| == 3 && |OPTIONS| == 7;
    OptionsRefuse(build, at, entry.value);
  }

  lemma ProviderWalkRefuses(build: Build, at: Place, value: Json)
    requires WellFormed(value) && value.Object?
    ensures Walk(ProviderField(build, at), true, value.entries).refused.None?
            <==> (Get(value, "npm").Some? ==>
                  Get(value, "npm").value.Str? && Wire(Get(value, "npm").value.text).Some?)
                 && AddressIfAny(Get2(value, "options", "endpoint"), build)
                 && AddressIfAny(Get2(value, "options", "baseURL"), build)
  {
    var field, entries := ProviderField(build, at), value.entries;
    assert entries[..|entries|] == entries;
    WalkRefusesExactly(field, true, entries, |entries|);
    forall i | 0 <= i < |entries|
      ensures field(entries[..i], entries[i]).refused.None?
              <==> (entries[i].key == "npm" ==> entries[i].value.Str? && Wire(entries[i].value.text).Some?)
                   && (entries[i].key == "options" ==>
                       AddressIfAny(Get(entries[i].value, "endpoint"), build)
                       && AddressIfAny(Get(entries[i].value, "baseURL"), build))
      ensures Get(value, entries[i].key) == Some(entries[i].value)
    {
      ProviderRefusal(build, at, entries[i]);
      NotYet(entries, i);
    }
    var i, j := IndexOf(entries, "npm"), IndexOf(entries, "options");
    assert i < |entries| ==> entries[i].key == "npm";
    assert j < |entries| ==> entries[j].key == "options";
  }

  /** What the options leave as the address. */
  lemma AddressSlot(build: Build, at: Place, value: Json)
    requires WellFormed(value) && OptionsOf(build, at, value).refused.None?
    ensures Held(OptionsOf(build, at, value).writes, BASE_URL)
            == if Get(value, "endpoint").Some? then Get(value, "endpoint") else Get(value, "baseURL")
  {
    if value.Object? {
      OptionsFill(build, at, value, ENDPOINT);
      OptionsFill(build, at, value, UPSTREAM_URL);
      assert |BASE_URL| == 8 && |HEADERS| == 7;
    }
  }

  /** And as the headers. */
  lemma HeadersHeld(build: Build, at: Place, value: Json)
    requires WellFormed(value)
    ensures HoldsMap(Held(OptionsOf(build, at, value).writes, HEADERS), Get(value, "headers"))
  {
    if value.Object? {
      var writes := Walk(OptionField(build, at), true, value.entries).writes;
      OptionsOwn(build, at, value);
      SlotFrom(OptionField(build, at), true, SelfOwned(), value.entries, HEADERS, HEADERS);
      HeadersSlot(build, at, value);
      SlotsPass(writes);
    }
  }

  lemma SlotsPass(writes: map<string, Option<Json>>)
    ensures Held(OptionSlots(writes), HEADERS) == Held(writes, HEADERS)
  {
    assert |BASE_URL| == 8 && |HEADERS| == 7;
  }

  lemma HeadersSlot(build: Build, at: Place, value: Json)
    requires WellFormed(value) && value.Object?
    ensures var i := IndexOf(value.entries, HEADERS);
            HoldsMap(if i < |value.entries| then Held(OptionKey(build, at, value.entries[i]).writes, HEADERS) else None,
                     Get(value, "headers"))
  {
    var i := IndexOf(value.entries, HEADERS);
    if i < |value.entries| {
      assert HEADERS[0] == 'h' && API_KEY[0] == 'a' && ENDPOINT[0] == 'e' && UPSTREAM_URL[0] == 'b';
      MapRead(Place(at.from + [Key(OPTIONS), Key(HEADERS)], at.to + [Key(HEADERS)]), value.entries[i].value);
    }
  }

  /** What is held under a key of the entry that one key of the source fills. */
  lemma ProviderSlot(build: Build, at: Place, value: Json, slot: string, key: string)
    requires WellFormed(value) && value.Object?
    requires (slot == DIALECT && key == NPM) || ((slot == BASE_URL || slot == HEADERS) && key == OPTIONS)
    ensures Held(Walk(ProviderField(build, at), true, value.entries).writes, slot)
            == if Get(value, key).Some?
                 then Held(ProviderKey(build, at, Entry(key, Get(value, key).value)).writes, slot)
               else None
  {
    assert |DIALECT| == 7 && |BASE_URL| == 8 && |HEADERS| == 7 && DIALECT[0] == 'd' && HEADERS[0] == 'h';
    ProviderOwnsAll(build, at, value.entries);
    SlotFrom(ProviderField(build, at), true, ProviderOwned(), value.entries, slot, key);
    var i := IndexOf(value.entries, key);
    assert i < |value.entries| ==> value.entries[i] == Entry(key, Get(value, key).value);
  }

  lemma DialectSlot(build: Build, at: Place, value: Json)
    requires WellFormed(value) && value.Object?
    ensures var package := Get(value, "npm");
            Held(Walk(ProviderField(build, at), true, value.entries).writes, DIALECT)
            == if package.Some? && package.value.Str? && Wire(package.value.text).Some?
               then Some(Str(Wire(package.value.text).value)) else None
  {
    ProviderSlot(build, at, value, DIALECT, NPM);
  }

  lemma ProviderAddress(build: Build, at: Place, value: Json)
    requires WellFormed(value) && value.Object?
    requires Walk(ProviderField(build, at), true, value.entries).refused.None?
    ensures Held(Walk(ProviderField(build, at), true, value.entries).writes, BASE_URL)
            == if Get2(value, "options", "endpoint").Some? then Get2(value, "options", "endpoint")
               else Get2(value, "options", "baseURL")
  {
    ProviderSlot(build, at, value, BASE_URL, OPTIONS);
    ProviderWalkRefuses(build, at, value);
    if Get(value, "options").Some? {
      var options := Get(value, "options").value;
      OptionsAt(build, at, [], Entry(OPTIONS, options));
      OptionsRefuse(build, at, options);
      AddressSlot(build, at, options);
    }
  }

  lemma ProviderHeaders(build: Build, at: Place, value: Json)
    requires WellFormed(value) && value.Object?
    ensures HoldsMap(Held(Walk(ProviderField(build, at), true, value.entries).writes, HEADERS),
                     Get2(value, "options", "headers"))
  {
    ProviderSlot(build, at, value, HEADERS, OPTIONS);
    if Get(value, "options").Some? {
      OptionsAt(build, at, [], Entry(OPTIONS, Get(value, "options").value));
      HeadersHeld(build, at, Get(value, "options").value);
    }
  }

  lemma HasAWire(package: string)
    ensures Wire(package).Some? <==> exists wire :: Speaks(package, wire)
  {
    if Wire(package).Some? {
      WireSpeaks(package, Wire(package).value);
    }
    forall wire | Speaks(package, wire) ensures Wire(package).Some? {
      WireSpeaks(package, wire);
    }
  }

  /** A provider comes across exactly when it is whole. */
  lemma ProviderCarriedExactly(build: Build, at: Place, id: string, value: Json)
    requires WellFormed(value)
    ensures ProviderOf(build, at, id, value).value.Some? <==> ProviderWhole(build, id, value)
  {
    if value.Object? {
      ProviderWalkRefuses(build, at, value);
      DialectSlot(build, at, value);
      if Get(value, "npm").Some? && Get(value, "npm").value.Str? {
        HasAWire(Get(value, "npm").value.text);
      }
      if Walk(ProviderField(build, at), true, value.entries).refused.None? {
        ProviderAddress(build, at, value);
      }
    }
  }

  lemma ProviderMade(build: Build, at: Place, id: string, value: Json, n: nat)
    requires WellFormed(value) && ProviderOf(build, at, id, value).value.Some? && n < |PROVIDER_ORDER|
    ensures Get(ProviderOf(build, at, id, value).value.value, PROVIDER_ORDER[n])
            == Held(Walk(ProviderField(build, at), true, value.entries).writes, PROVIDER_ORDER[n])
  {
    PresentFinds(PROVIDER_ORDER, Walk(ProviderField(build, at), true, value.entries).writes, PROVIDER_ORDER[n]);
  }

  /** And holds its package's wire, the address it is reached at and its headers. */
  lemma ProviderHoldsAll(build: Build, at: Place, id: string, value: Json)
    requires WellFormed(value) && ProviderOf(build, at, id, value).value.Some?
    ensures ProviderHas(value, ProviderOf(build, at, id, value).value.value)
  {
    ProviderHolds(build, at, id, value);
    ProviderMade(build, at, id, value, 0);
    ProviderMade(build, at, id, value, 1);
    ProviderMade(build, at, id, value, 2);
    assert PROVIDER_ORDER[0] == DIALECT && PROVIDER_ORDER[1] == BASE_URL && PROVIDER_ORDER[2] == HEADERS;
    DialectSlot(build, at, value);
    ProviderAddress(build, at, value);
    ProviderHeaders(build, at, value);
    WireSpeaks(Get(value, "npm").value.text, Wire(Get(value, "npm").value.text).value);
  }
}
