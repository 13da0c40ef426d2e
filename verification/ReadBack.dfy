/**
 * What a loader of a written file finds at each path, told of the source alone: the same keys, lists of the
 * same length, the same words, fractions as they were spelled and whole numbers as the numbers they are.
 */
module ReadBack {
  import opened Optional
  import opened JsonTree
  import opened Numbers
  import opened Toml
  import opened Migrate
  import opened MigrateMeaning
  import opened Guarding
  import opened Services
  import opened Import
  import opened ImportWritten

  /** `read` is what a file that was written from `written` holds in its place, what is inside it apart. */
  ghost predicate Stays(written: Json, read: Json) {
    match written
    case Array(elements) => read.Array? && |read.elements| == |elements|
    case Object(_) => read.Object?
    case Number(spelled) =>
      && (forall n :: LEAST <= n <= MOST && spelled == Decimal(n) ==> read == written)
      && (WrittenAsFraction(spelled) ==> read == written)
      && (!WrittenAsFraction(spelled) ==>
          ParseWhole(spelled).Some? && read == Number(Decimal(ParseWhole(spelled).value)))
    case _ => read == written
  }

  lemma NumberStays(spelled: string)
    requires FitsToml(spelled)
    ensures Stays(Number(spelled), Number(Loaded(spelled)))
  {
    forall n | LEAST <= n <= MOST && spelled == Decimal(n) ensures Loaded(spelled) == spelled {
      DecimalReads(n);
    }
  }

  // A migration.

  lemma {:induction false} LastStatedFound(entries: seq<Entry>, key: string)
    requires UniqueKeys(entries)
    ensures MeantBy(LastStated(entries, key)) == MeantBy(Find(entries, key))
  {
    if entries != [] {
      var n := |entries| - 1;
      LastStatedFound(entries[..n], key);
      FindAppend(entries[..n], [entries[n]], key);
      assert entries == entries[..n] + [entries[n]];
      if entries[n].key == key {
        IndexOfUnique(entries, n);
        NothingElsewhere(entries, n);
      }
    }
  }

  lemma NothingElsewhere(entries: seq<Entry>, n: nat)
    requires UniqueKeys(entries) && n == |entries| - 1
    ensures Find(entries[..n], entries[n].key).None? && LastStated(entries[..n], entries[n].key).None?
  {
    assert forall i :: 0 <= i < n ==> entries[..n][i].key != entries[n].key;
    NeverStated(entries[..n], entries[n].key);
  }

  lemma {:induction false} NeverStated(entries: seq<Entry>, key: string)
    requires forall i :: 0 <= i < |entries| ==> entries[i].key != key
    ensures LastStated(entries, key).None?
  {
    if entries != [] {
      NeverStated(entries[..|entries| - 1], key);
    }
  }

  /** The meaning of a source leads, on each path, to the meaning of what the source holds there. */
  lemma {:induction false} MeaningAt(source: Json, path: Path)
    requires WellFormed(source) && Translatable(source) && !source.Null?
    ensures var there := At(source, path);
            At(Meaning(source), path).Some? <==> there.Some? && !there.value.Null?
    ensures At(Meaning(source), path).Some? ==>
              Translatable(At(source, path).value)
              && At(Meaning(source), path).value == Meaning(At(source, path).value)
    decreases |path|
  {
    if path != [] {
      match path[0] {
        case Index(n) =>
          if source.Array? && n < |source.elements| {
            MeaningAt(source.elements[n], path[1..]);
          }
        case Key(key) =>
          if source.Object? {
            NullUnsaysNothing(source.entries, key);
            LastStatedFound(source.entries, key);
            NullLeadsNowhere(path[1..]);
            var i := IndexOf(source.entries, key);
            if i < |source.entries| && !source.entries[i].value.Null? {
              MeaningAt(source.entries[i].value, path[1..]);
            }
          }
      }
    }
  }

  lemma NullLeadsNowhere(path: Path)
    ensures At(Null, path).Some? ==> At(Null, path) == Some(Null)
  {}

  /**
   * The migrated file, read, leads somewhere on exactly the paths on which the source has something that is
   * not null, and holds there what the source does.
   */
  lemma MigratedStays(source: Json, path: Path)
    requires source.Object? && WellFormed(source) && TranslateOf(source).Done?
    ensures
      var back := Read(Print(TranslateOf(source).value));
      && back.Some?
      && var there, read := At(source, path), At(FromNode(back.value), path);
      && (read.Some? <==> there.Some? && !there.value.Null?)
      && (read.Some? ==> Stays(there.value, read.value))
  {
    MigrationKeepsMeaning(source);
    var back := FromNode(Read(Print(TranslateOf(source).value)).value);
    TranslatedExactly(source);
    MeaningWellFormed(source);
    AgreeAt(back, Meaning(source), path);
    MeaningAt(source, path);
    if At(back, path).Some? {
      AgreeStays(At(back, path).value, At(source, path).value);
    }
  }

  lemma AgreeStays(back: Json, source: Json)
    requires Translatable(source) && Agree(back, Meaning(source))
    ensures Stays(source, back)
  {
    if source.Number? {
      NumberStays(source.spelled);
    }
  }

  // An import.

  lemma MatchingKeys(a: seq<Entry>, b: seq<Entry>, key: string)
    requires |a| == |b| && forall i :: 0 <= i < |a| ==> a[i].key == b[i].key
    ensures IndexOf(a, key) == IndexOf(b, key)
  {
    var i, j := IndexOf(a, key), IndexOf(b, key);
    assert i < j ==> i == |a|;
    assert j < i ==> j == |b|;
  }

  /** A tree with its numbers as a loader spells them leads, on each path, to such a tree. */
  lemma {:induction false} CanonicalAt(json: Json, path: Path)
    ensures At(Canonical(json), path) ==
            if At(json, path).Some? then Some(Canonical(At(json, path).value)) else None
    decreases |path|
  {
    if path != [] {
      match path[0] {
        case Index(n) =>
          if json.Array? && n < |json.elements| {
            CanonicalAt(json.elements[n], path[1..]);
          }
        case Key(key) =>
          if json.Object? {
            MatchingKeys(json.entries, Canonical(json).entries, key);
            var i := IndexOf(json.entries, key);
            if i < |json.entries| {
              CanonicalAt(json.entries[i].value, path[1..]);
            }
          }
      }
    }
  }

  lemma {:induction false} CarriableAt(json: Json, path: Path)
    requires Carriable(json) && At(json, path).Some?
    ensures Carriable(At(json, path).value)
    decreases |path|
  {
    if path != [] {
      match path[0] {
        case Index(n) => CarriableAt(json.elements[n], path[1..]);
        case Key(key) => CarriableAt(json.entries[IndexOf(json.entries, key)].value, path[1..]);
      }
    }
  }

  /** The keys of an object, in order; of anything else, none. */
  function KeysOf(json: Json): seq<string> {
    if json.Object? then Keys(json.entries) else []
  }

  lemma CanonicalStays(json: Json, path: Path)
    requires Carriable(json)
    ensures At(Canonical(json), path).Some? <==> At(json, path).Some?
    ensures At(json, path).Some? ==>
              var there, read := At(json, path).value, At(Canonical(json), path).value;
              Stays(there, read) && KeysOf(read) == KeysOf(there)
  {
    CanonicalAt(json, path);
    if At(json, path).Some? {
      var there := At(json, path).value;
      CarriableAt(json, path);
      assert KeysOf(Canonical(there)) == KeysOf(there);
      if there.Number? {
        NumberStays(there.spelled);
      }
    }
  }

  /** A guarded value written as TOML leads, read back, where it led, and holds there what it held, in its order. */
  lemma ValueStays(json: Json, path: Path)
    requires Carriable(json) && WellFormed(json)
    ensures
      && ValueOf(json).Some?
      && var there, read := At(json, path), At(FromValue(ValueOf(json).value), path);
      && (read.Some? <==> there.Some?)
      && (read.Some? ==> Stays(there.value, read.value) && KeysOf(read.value) == KeysOf(there.value))
  {
    ValueKeepsAll(json);
    CanonicalStays(json, path);
  }

  /** So does the whole file an import writes. */
  lemma WrittenStays(build: Build, config: Json, path: Path)
    requires config.Object? && WellFormed(config) && path != []
    ensures
      var document := ImportOf(build, config).0;
      var back := Read(Print(DocumentItems(document.entries)));
      && back.Some?
      && var there, read := At(document, path), At(FromNode(back.value), path);
      && (read.Some? <==> there.Some?)
      && (read.Some? ==> Stays(there.value, read.value) && KeysOf(read.value) == KeysOf(there.value))
  {
    var document := ImportOf(build, config).0;
    ImportIsKept(build, config);
    KeptDocumentCarriable(document);
    if path[0].Key? {
      WrittenReadsBack(build, config, path[0].key);
      SameBelow(Read(Print(DocumentItems(document.entries))).value, document, path);
    } else {
      WrittenReadsBack(build, config, "");
    }
  }

  lemma SameBelow(node: Node, document: Json, path: Path)
    requires Carriable(document) && document.Object? && path != [] && path[0].Key?
    requires Get(FromNode(node), path[0].key) == Get(Canonical(document), path[0].key)
    ensures
      var there, read := At(document, path), At(FromNode(node), path);
      && (read.Some? <==> there.Some?)
      && (read.Some? ==> Stays(there.value, read.value) && KeysOf(read.value) == KeysOf(there.value))
  {
    CanonicalStays(document, path);
    assert At(FromNode(node), path) == At(Canonical(document), path);
  }

  lemma KeptDocumentCarriable(document: Json)
    requires KeptDocument(document)
    ensures Carriable(document)
  {
    forall i | 0 <= i < |document.entries| ensures Carriable(document.entries[i].value) {
      assert KeptSlot(document.entries[i]);
    }
  }
}
