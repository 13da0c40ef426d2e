/**
 * What an import says it did with every key it saw, and what makes such a report true: every scalar is
 * accounted for, and every key said to have landed is there, carrying what the source held.
 */
module Accounts {
  import opened Optional
  import opened JsonTree
  import opened Landing

  /** Why a key was left out. */
  datatype Reason =
    | Unsupported | Catalog | Credential | Deferred | OnlyAToken | NullValue | OutOfRange
    | UnknownKey | Malformed | Overridden | Unpublished | Incompatible | Refused

  /** One row: a key and where it landed, or a key and why it was left out. */
  datatype Row = Mapped(from: Path, to: Path) | Skipped(from: Path, reason: Reason)

  /** Where a key sits in each document. */
  datatype Place = Place(from: Path, to: Path) {
    function Child(key: string): Place {
      Place(from + [Key(key)], to + [Key(key)])
    }

    function Item(index: nat): Place {
      Place(from + [Index(index)], to + [Index(index)])
    }
  }

  const ROOT := Place([], [])

  predicate Beneath(prefix: Path, path: Path) {
    |prefix| <= |path| && path[..|prefix|] == prefix
  }

  ghost predicate Named(rows: seq<Row>, path: Path) {
    exists i :: 0 <= i < |rows| && rows[i].from == path
  }

  /** Some row names the value or, failing that, its parts are each accounted for. An empty container may go unsaid. */
  ghost predicate Accounted(rows: seq<Row>, from: Path, value: Json)
    decreases value
  {
    Named(rows, from) ||
    match value
    case Array(elements) => forall i :: 0 <= i < |elements| ==> Accounted(rows, from + [Index(i)], elements[i])
    case Object(entries) => forall i :: 0 <= i < |entries| ==>
      Accounted(rows, from + [Key(entries[i].key)], entries[i].value)
    case _ => false
  }

  lemma NamedMore(rows: seq<Row>, more: seq<Row>, path: Path)
    requires Named(rows, path)
    ensures Named(rows + more, path) && Named(more + rows, path)
  {
    var i :| 0 <= i < |rows| && rows[i].from == path;
    assert (rows + more)[i] == rows[i] && (more + rows)[|more| + i] == rows[i];
  }

  lemma {:induction false} AccountedMore(rows: seq<Row>, more: seq<Row>, from: Path, value: Json)
    requires Accounted(rows, from, value)
    ensures Accounted(rows + more, from, value) && Accounted(more + rows, from, value)
    decreases value
  {
    if Named(rows, from) {
      NamedMore(rows, more, from);
    } else if value.Array? {
      forall i | 0 <= i < |value.elements|
        ensures Accounted(rows + more, from + [Index(i)], value.elements[i])
                && Accounted(more + rows, from + [Index(i)], value.elements[i])
      {
        AccountedMore(rows, more, from + [Index(i)], value.elements[i]);
      }
    } else {
      forall i | 0 <= i < |value.entries|
        ensures Accounted(rows + more, from + [Key(value.entries[i].key)], value.entries[i].value)
        ensures Accounted(more + rows, from + [Key(value.entries[i].key)], value.entries[i].value)
      {
        AccountedMore(rows, more, from + [Key(value.entries[i].key)], value.entries[i].value);
      }
    }
  }

  /** What the accounting comes to: every scalar has a row naming it or one of the values it sits in. */
  lemma {:induction false} EveryLeafHasARow(rows: seq<Row>, from: Path, value: Json, path: Path)
    requires Accounted(rows, from, value)
    requires At(value, path).Some? && Scalar(At(value, path).value)
    ensures exists i :: 0 <= i < |rows| && Beneath(rows[i].from, from + path)
    decreases |path|
  {
    if Named(rows, from) {
      var i :| 0 <= i < |rows| && rows[i].from == from;
      assert Beneath(rows[i].from, from + path);
    } else {
      var below := from + [path[0]];
      assert below + path[1..] == from + path;
      match path[0]
      case Key(key) =>
        var i := IndexOf(value.entries, key);
        EveryLeafHasARow(rows, below, value.entries[i].value, path[1..]);
      case Index(index) =>
        EveryLeafHasARow(rows, below, value.elements[index], path[1..]);
    }
  }

  /**
   * A row is honest about a source and a result when the key it names is one the source has and, if it
   * says the key landed, its destination holds what that key becomes.
   */
  ghost predicate Honest(row: Row, place: Place, source: Json, result: Option<Json>) {
    && Beneath(place.from, row.from)
    && At(source, row.from[|place.from|..]).Some?
    && (row.Mapped? ==> Landed(row, place, source, result))
  }

  ghost predicate Landed(row: Row, place: Place, source: Json, result: Option<Json>)
    requires row.Mapped? && Beneath(place.from, row.from)
  {
    Beneath(place.to, row.to) && result.Some?
      && Becomes(source, result.value, row.from[|place.from|..], row.to[|place.to|..])
  }

  ghost predicate AllHonest(rows: seq<Row>, place: Place, source: Json, result: Option<Json>) {
    forall i :: 0 <= i < |rows| ==> Honest(rows[i], place, source, result)
  }

  lemma AllHonestBoth(rows: seq<Row>, more: seq<Row>, place: Place, source: Json, result: Option<Json>)
    requires AllHonest(rows, place, source, result) && AllHonest(more, place, source, result)
    ensures AllHonest(rows + more, place, source, result)
  {}

  /** What a child's row says of the child, it says of the object holding it. */
  lemma HonestOfChild(row: Row, place: Place, key: string, source: Json, child: Json, result: Option<Json>,
                      grown: Option<Json>)
    requires Get(source, key) == Some(child)
    requires Honest(row, place.Child(key), child, result)
    requires result.Some? ==> grown.Some? && Get(grown.value, key) == result
    ensures Honest(row, place, source, grown) && Beneath(place.from + [Key(key)], row.from)
  {
    Below(place.from, Key(key), row.from);
    if row.Mapped? {
      Below(place.to, Key(key), row.to);
    }
  }

  /** A path below a step of a prefix, seen from the prefix. */
  lemma Below(prefix: Path, step: Step, path: Path)
    requires Beneath(prefix + [step], path)
    ensures Beneath(prefix, path)
    ensures path[|prefix|..] == [step] + path[|prefix + [step]|..] && path[|prefix|..][1..] == path[|prefix + [step]|..]
  {
    var below := prefix + [step];
    assert path[..|below|] == below;
    assert path[..|prefix|] == path[..|below|][..|prefix|] == prefix;
    assert path[|prefix|] == path[..|below|][|prefix|] == step;
  }

  lemma AllHonestOfChild(rows: seq<Row>, place: Place, key: string, source: Json, child: Json, result: Option<Json>,
                         grown: Option<Json>)
    requires Get(source, key) == Some(child)
    requires AllHonest(rows, place.Child(key), child, result)
    requires result.Some? ==> grown.Some? && Get(grown.value, key) == result
    ensures AllHonest(rows, place, source, grown) && AllBeneath(rows, place.from + [Key(key)])
  {
    forall i | 0 <= i < |rows|
      ensures Honest(rows[i], place, source, grown) && Beneath(place.from + [Key(key)], rows[i].from)
    {
      HonestOfChild(rows[i], place, key, source, child, result, grown);
    }
  }

  /** One row about the value itself: left out, or landed with some of it pruned. */
  lemma OwnRowHonest(row: Row, place: Place, source: Json, result: Option<Json>)
    requires row.from == place.from
    requires row.Mapped? ==> row.to == place.to && result.Some? && Prunes(source, result.value)
    ensures AllHonest([row], place, source, result)
  {
    assert row.from[|place.from|..] == [];
    if row.Mapped? {
      assert row.to[|place.to|..] == [];
    }
  }

  predicate AllBeneath(rows: seq<Row>, path: Path) {
    forall i :: 0 <= i < |rows| ==> Beneath(path, rows[i].from)
  }

  /** No row is about the object itself: each names a key below it. */
  predicate AllBelow(rows: seq<Row>, path: Path) {
    forall i :: 0 <= i < |rows| ==> Beneath(path, rows[i].from) && |rows[i].from| > |path|
  }

  /** Everything `before` holds, `after` holds under the same key. */
  ghost predicate Keeps(before: Json, after: Json) {
    before.Object? && after.Object?
    && forall key :: Has(before.entries, key) ==> Get(after, key) == Get(before, key)
  }

  lemma HonestGrows(rows: seq<Row>, place: Place, source: Json, before: Json, after: Json)
    requires AllHonest(rows, place, source, Some(before)) && AllBelow(rows, place.from)
    requires Keeps(before, after)
    ensures AllHonest(rows, place, source, Some(after))
  {
    forall i | 0 <= i < |rows| ensures Honest(rows[i], place, source, Some(after)) {
      if rows[i].Mapped? {
        var to := rows[i].to[|place.to|..];
        if to != [] {
          assert At(after, to) == At(before, to);
        }
      }
    }
  }
}
