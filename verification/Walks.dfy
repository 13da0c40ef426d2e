/**
 * The loop every mapper runs over an object's keys: which slots it fills, which rows it writes, which
 * refusal it ends with; and how what holds of each key's part holds of the whole.
 */
module Walks {
  import opened Optional
  import opened JsonTree
  import opened Accounts

  /** What one key, or a run of keys, does: the slots assigned, the rows written, the refusal met. */
  datatype Effect = Effect(writes: map<string, Option<Json>>, rows: seq<Row>, refused: Option<Reason>)

  const NOTHING := Effect(map[], [], None)

  function Either(a: Option<Reason>, b: Option<Reason>): Option<Reason> {
    if a.Some? then a else b
  }

  function Then(a: Effect, b: Effect, firstRefusal: bool): Effect {
    Effect(a.writes + b.writes, a.rows + b.rows,
           if firstRefusal then Either(a.refused, b.refused) else Either(b.refused, a.refused))
  }

  /** What an entry does, given the entries before it. */
  type Field = (seq<Entry>, Entry) -> Effect

  function Walk(field: Field, firstRefusal: bool, entries: seq<Entry>): Effect {
    if entries == [] then NOTHING
    else
      var n := |entries| - 1;
      Then(Walk(field, firstRefusal, entries[..n]), field(entries[..n], entries[n]), firstRefusal)
  }

  /** The slots that hold something, in the order they are written out. */
  function Present(order: seq<string>, writes: map<string, Option<Json>>): seq<Entry> {
    if order == [] then []
    else
      (if order[0] in writes && writes[order[0]].Some? then [Entry(order[0], writes[order[0]].value)] else [])
      + Present(order[1..], writes)
  }

  function Held(writes: map<string, Option<Json>>, slot: string): Option<Json> {
    if slot in writes then writes[slot] else None
  }

  lemma {:induction false} PresentFinds(order: seq<string>, writes: map<string, Option<Json>>, slot: string)
    ensures Find(Present(order, writes), slot) == if slot in order then Held(writes, slot) else None
  {
    if order != [] {
      PresentFinds(order[1..], writes, slot);
      var first := if order[0] in writes && writes[order[0]].Some? then [Entry(order[0], writes[order[0]].value)]
                   else [];
      FindAppend(first, Present(order[1..], writes), slot);
      assert order == [order[0]] + order[1..];
    }
  }

  lemma {:induction false} PresentUnique(order: seq<string>, writes: map<string, Option<Json>>)
    requires forall i, j :: 0 <= i < j < |order| ==> order[i] != order[j]
    ensures UniqueKeys(Present(order, writes))
    ensures forall entry <- Present(order, writes) :: entry.key in order && Held(writes, entry.key) == Some(entry.value)
  {
    if order != [] {
      PresentUnique(order[1..], writes);
    }
  }

  /** The document holds what was assigned, each value under its slot. */
  ghost predicate Delivers(writes: map<string, Option<Json>>, document: Option<Json>) {
    forall slot <- writes.Keys :: writes[slot].Some? ==> document.Some? && Get(document.value, slot) == writes[slot]
  }

  lemma PresentDelivers(order: seq<string>, writes: map<string, Option<Json>>)
    requires forall slot <- writes.Keys :: writes[slot].Some? ==> slot in order
    ensures Delivers(writes, Unless(Present(order, writes)))
  {
    forall slot <- writes.Keys | writes[slot].Some? ensures Find(Present(order, writes), slot) == writes[slot] {
      PresentFinds(order, writes, slot);
    }
  }

  lemma {:induction false} WalkIncludes(field: Field, firstRefusal: bool, entries: seq<Entry>, i: nat, from: Path,
                                        value: Json)
    requires i < |entries| && Accounted(field(entries[..i], entries[i]).rows, from, value)
    ensures Accounted(Walk(field, firstRefusal, entries).rows, from, value)
    decreases |entries|
  {
    var n := |entries| - 1;
    var before, last := Walk(field, firstRefusal, entries[..n]).rows, field(entries[..n], entries[n]).rows;
    if i < n {
      assert entries[..n][..i] == entries[..i];
      WalkIncludes(field, firstRefusal, entries[..n], i, from, value);
      AccountedMore(before, last, from, value);
    } else {
      AccountedMore(last, before, from, value);
    }
  }

  ghost predicate EachRow(rows: seq<Row>, good: Row -> bool) {
    forall i :: 0 <= i < |rows| ==> good(rows[i])
  }

  /** What is true of every row each key wrote is true of every row. */
  lemma {:induction false} WalkRows(field: Field, firstRefusal: bool, entries: seq<Entry>, n: nat, good: Row -> bool)
    requires n <= |entries| && forall i :: 0 <= i < n ==> EachRow(field(entries[..i], entries[i]).rows, good)
    ensures EachRow(Walk(field, firstRefusal, entries[..n]).rows, good)
  {
    if n > 0 {
      WalkRows(field, firstRefusal, entries, n - 1, good);
      assert entries[..n][..n - 1] == entries[..n - 1];
    }
  }

  lemma {:induction false} WalkRefusal(field: Field, firstRefusal: bool, entries: seq<Entry>, n: nat, i: nat)
    requires i < n <= |entries| && Walk(field, firstRefusal, entries[..n]).refused.None?
    ensures field(entries[..i], entries[i]).refused.None?
    decreases n
  {
    assert entries[..n][..n - 1] == entries[..n - 1];
    if i < n - 1 {
      WalkRefusal(field, firstRefusal, entries, n - 1, i);
    }
  }

  /** Which keys may assign a slot. */
  type Owners = string -> set<string>

  /** A slot is assigned by the first of its owners and by no later one. */
  ghost predicate OwnSlots(effect: Effect, owners: Owners, before: seq<Entry>, entry: Entry) {
    forall slot <- effect.writes.Keys :: entry.key in owners(slot) && forall key <- owners(slot) :: !Has(before, key)
  }

  ghost predicate AllOwnSlots(field: Field, owners: Owners, entries: seq<Entry>) {
    forall i :: 0 <= i < |entries| ==> OwnSlots(field(entries[..i], entries[i]), owners, entries[..i], entries[i])
  }

  predicate SomeOwner(owners: Owners, entries: seq<Entry>, slot: string) {
    exists key <- owners(slot) :: Has(entries, key)
  }

  lemma HasLonger(entries: seq<Entry>, n: nat, key: string)
    requires n < |entries|
    ensures Has(entries[..n + 1], key) <==> Has(entries[..n], key) || entries[n].key == key
  {
    assert entries[..n + 1] == entries[..n] + [entries[n]];
    FindAppend(entries[..n], [entries[n]], key);
  }

  lemma {:induction false} WalkSlots(field: Field, firstRefusal: bool, owners: Owners, entries: seq<Entry>, n: nat)
    requires n <= |entries| && AllOwnSlots(field, owners, entries)
    ensures forall slot <- Walk(field, firstRefusal, entries[..n]).writes.Keys :: SomeOwner(owners, entries[..n], slot)
  {
    if n > 0 {
      WalkSlots(field, firstRefusal, owners, entries, n - 1);
      assert entries[..n][..n - 1] == entries[..n - 1];
      forall key ensures Has(entries[..n], key) <==> Has(entries[..n - 1], key) || entries[n - 1].key == key {
        HasLonger(entries, n - 1, key);
      }
    }
  }

  /** What a key assigns stays assigned to the end. */
  lemma {:induction false} WritesStay(field: Field, firstRefusal: bool, owners: Owners, entries: seq<Entry>, n: nat,
                                      i: nat)
    requires i < n <= |entries| && AllOwnSlots(field, owners, entries)
    ensures var writes := field(entries[..i], entries[i]).writes;
            forall slot <- writes.Keys :: Held(Walk(field, firstRefusal, entries[..n]).writes, slot) == writes[slot]
  {
    assert entries[..n][..n - 1] == entries[..n - 1];
    if i < n - 1 {
      WritesStay(field, firstRefusal, owners, entries, n - 1, i);
      var writes, last := field(entries[..i], entries[i]).writes, field(entries[..n - 1], entries[n - 1]);
      forall slot <- writes.Keys ensures slot !in last.writes.Keys {
        if slot in last.writes.Keys {
          assert OwnSlots(field(entries[..i], entries[i]), owners, entries[..i], entries[i]);
          assert OwnSlots(last, owners, entries[..n - 1], entries[n - 1]);
          HasKey(entries[..n - 1], i);
          assert false;
        }
      }
    }
  }

  lemma HasKey(entries: seq<Entry>, i: nat)
    requires i < |entries|
    ensures Has(entries, entries[i].key)
  {}

  /** Each row names a key that is there. */
  predicate Sourced(row: Row, place: Place, source: Json) {
    Beneath(place.from, row.from) && At(source, row.from[|place.from|..]).Some?
  }

  predicate AllSourced(rows: seq<Row>, place: Place, source: Json) {
    forall i :: 0 <= i < |rows| ==> Sourced(rows[i], place, source)
  }

  lemma SourcedOfChild(rows: seq<Row>, from: Path, to: Path, place: Place, key: string, source: Json, child: Json)
    requires Get(source, key) == Some(child) && AllSourced(rows, Place(from, to), child)
             && from == place.from + [Key(key)]
    ensures AllSourced(rows, place, source)
  {
    forall i | 0 <= i < |rows| ensures Sourced(rows[i], place, source) {
      Below(place.from, Key(key), rows[i].from);
    }
  }

  /**
   * One key's part: its rows name what is there and, unless it refuses, are honest about any document holding
   * what it assigned.
   */
  ghost predicate Sound(effect: Effect, place: Place, source: Json, document: Option<Json>) {
    && AllSourced(effect.rows, place, source)
    && (effect.refused.None? && Delivers(effect.writes, document) ==> AllHonest(effect.rows, place, source, document))
  }

  /**
   * Every row of a walk names what is there and, unless the walk refused, is honest about the document its
   * slots make.
   */
  lemma WalkSound(field: Field, firstRefusal: bool, owners: Owners, entries: seq<Entry>, place: Place, source: Json,
                  document: Option<Json>)
    requires AllOwnSlots(field, owners, entries)
    requires forall i :: 0 <= i < |entries| ==> Sound(field(entries[..i], entries[i]), place, source, document)
    ensures Sound(Walk(field, firstRefusal, entries), place, source, document)
  {
    var all := Walk(field, firstRefusal, entries);
    assert entries[..|entries|] == entries;
    WalkRows(field, firstRefusal, entries, |entries|, row => Sourced(row, place, source));
    if all.refused.None? && Delivers(all.writes, document) {
      forall i | 0 <= i < |entries| ensures AllHonest(field(entries[..i], entries[i]).rows, place, source, document) {
        WalkRefusal(field, firstRefusal, entries, |entries|, i);
        WritesStay(field, firstRefusal, owners, entries, |entries|, i);
        assert Sound(field(entries[..i], entries[i]), place, source, document);
      }
      var good := row => Honest(row, place, source, document);
      forall i | 0 <= i < |entries| ensures EachRow(field(entries[..i], entries[i]).rows, good) {
        assert AllHonest(field(entries[..i], entries[i]).rows, place, source, document);
      }
      WalkRows(field, firstRefusal, entries, |entries|, good);
    }
  }

  predicate SlotsIn(effect: Effect, order: seq<string>) {
    forall slot <- effect.writes.Keys :: slot in order
  }

  lemma {:induction false} WalkSlotsIn(field: Field, firstRefusal: bool, entries: seq<Entry>, order: seq<string>,
                                       n: nat)
    requires n <= |entries| && forall i :: 0 <= i < |entries| ==> SlotsIn(field(entries[..i], entries[i]), order)
    ensures SlotsIn(Walk(field, firstRefusal, entries[..n]), order)
  {
    if n > 0 {
      WalkSlotsIn(field, firstRefusal, entries, order, n - 1);
      assert entries[..n][..n - 1] == entries[..n - 1];
    }
  }

  lemma {:induction false} WrittenBySome(field: Field, firstRefusal: bool, entries: seq<Entry>, n: nat, slot: string)
    returns (i: nat)
    requires n <= |entries| && slot in Walk(field, firstRefusal, entries[..n]).writes
    ensures i < n && slot in field(entries[..i], entries[i]).writes
  {
    assert entries[..n][..n - 1] == entries[..n - 1];
    if slot in field(entries[..n - 1], entries[n - 1]).writes {
      i := n - 1;
    } else {
      i := WrittenBySome(field, firstRefusal, entries, n - 1, slot);
    }
  }

  /** A slot that one key alone assigns holds at the end what that key assigned, if it is spelled. */
  lemma SlotFrom(field: Field, firstRefusal: bool, owners: Owners, entries: seq<Entry>, slot: string, key: string)
    requires AllOwnSlots(field, owners, entries) && owners(slot) == {key}
    ensures Held(Walk(field, firstRefusal, entries).writes, slot)
            == var i := IndexOf(entries, key);
               if i < |entries| then Held(field(entries[..i], entries[i]).writes, slot) else None
  {
    var i, all := IndexOf(entries, key), Walk(field, firstRefusal, entries).writes;
    assert entries[..|entries|] == entries;
    if slot in all {
      var j := WrittenBySome(field, firstRefusal, entries, |entries|, slot);
      OwnedByTheFirst(field, owners, entries, j, slot, key);
      WritesStay(field, firstRefusal, owners, entries, |entries|, j);
      assert slot in field(entries[..j], entries[j]).writes.Keys;
    } else if i < |entries| && slot in field(entries[..i], entries[i]).writes.Keys {
      WritesStay(field, firstRefusal, owners, entries, |entries|, i);
    }
  }

  lemma OwnedByTheFirst(field: Field, owners: Owners, entries: seq<Entry>, j: nat, slot: string, key: string)
    requires AllOwnSlots(field, owners, entries) && owners(slot) == {key}
    requires j < |entries| && slot in field(entries[..j], entries[j]).writes.Keys
    ensures j == IndexOf(entries, key)
  {
    assert OwnSlots(field(entries[..j], entries[j]), owners, entries[..j], entries[j]);
    assert key in owners(slot);
    forall k | 0 <= k < j ensures entries[k].key != key {
      assert entries[..j][k] == entries[k];
      HasKey(entries[..j], k);
    }
  }

  /** A walk refuses when one of its keys does, and only then. */
  lemma {:induction false} WalkRefusesExactly(field: Field, firstRefusal: bool, entries: seq<Entry>, n: nat)
    requires n <= |entries|
    ensures Walk(field, firstRefusal, entries[..n]).refused.None?
            <==> forall i :: 0 <= i < n ==> field(entries[..i], entries[i]).refused.None?
  {
    if n > 0 {
      WalkRefusesExactly(field, firstRefusal, entries, n - 1);
      assert entries[..n][..n - 1] == entries[..n - 1];
    }
  }

  /** Where the last refusal stands, it is the last key's that refuses. */
  lemma {:induction false} LastRefusal(field: Field, entries: seq<Entry>, n: nat, i: nat)
    requires i < n <= |entries| && field(entries[..i], entries[i]).refused.Some?
    requires forall j :: i < j < n ==> field(entries[..j], entries[j]).refused.None?
    ensures Walk(field, false, entries[..n]).refused == field(entries[..i], entries[i]).refused
    decreases n
  {
    assert entries[..n][..n - 1] == entries[..n - 1];
    if i < n - 1 {
      LastRefusal(field, entries, n - 1, i);
    }
  }

  /** Where the first does, it is the first key's that refuses. */
  lemma {:induction false} FirstRefusal(field: Field, entries: seq<Entry>, n: nat, i: nat)
    requires i < n <= |entries| && field(entries[..i], entries[i]).refused.Some?
    requires forall j :: 0 <= j < i ==> field(entries[..j], entries[j]).refused.None?
    ensures Walk(field, true, entries[..n]).refused == field(entries[..i], entries[i]).refused
    decreases n
  {
    assert entries[..n][..n - 1] == entries[..n - 1];
    if i < n - 1 {
      FirstRefusal(field, entries, n - 1, i);
    } else {
      WalkRefusesExactly(field, true, entries, n - 1);
    }
  }
}
