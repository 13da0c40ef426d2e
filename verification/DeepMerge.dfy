/** How the config tiers are overlaid (`merge`, `merge_document`, `instruction_union`). */
module DeepMerge {
  import opened Lists
  import opened Optional
  import opened JsonTree

  /** Two objects merge key by key; anything else replaces wholesale. */
  function Merge(target: Json, source: Json): Json
    decreases source
  {
    if target.Object? && source.Object?
    then Object(MergeEntries(target.entries, source.entries))
    else source
  }

  function MergeEntries(mine: seq<Entry>, theirs: seq<Entry>): seq<Entry>
    decreases theirs
  {
    if theirs == [] then mine
    else
      var i := IndexOf(mine, theirs[0].key);
      var next :=
        if i < |mine| then mine[i := Entry(mine[i].key, Merge(mine[i].value, theirs[0].value))]
        else mine + [theirs[0]];
      MergeEntries(next, theirs[1..])
  }

  /** The keys of `theirs` that `mine` does not have, in their order. */
  function NewKeys(mine: seq<Entry>, theirs: seq<Entry>): seq<string> {
    if theirs == [] then []
    else (if Has(mine, theirs[0].key) then [] else [theirs[0].key]) + NewKeys(mine, theirs[1..])
  }

  function MergedValue(mine: Option<Json>, theirs: Option<Json>): Option<Json> {
    if mine.None? then theirs
    else if theirs.None? then mine
    else Some(Merge(mine.value, theirs.value))
  }

  lemma NewKeysSame(a: seq<Entry>, b: seq<Entry>, theirs: seq<Entry>)
    requires forall i :: 0 <= i < |theirs| ==> Has(a, theirs[i].key) == Has(b, theirs[i].key)
    ensures NewKeys(a, theirs) == NewKeys(b, theirs)
  {
    if theirs != [] {
      NewKeysSame(a, b, theirs[1..]);
    }
  }

  lemma HasKeys(entries: seq<Entry>, key: string)
    ensures Has(entries, key) <==> key in Keys(entries)
    ensures Has(entries, key) <==> exists i :: 0 <= i < |entries| && entries[i].key == key
  {
    var i := IndexOf(entries, key);
    if i < |entries| {
      assert Keys(entries)[i] == key;
    }
  }

  /** One entry of the source put over the target. */
  function WithEntry(mine: seq<Entry>, entry: Entry): seq<Entry> {
    var i := IndexOf(mine, entry.key);
    if i < |mine| then mine[i := Entry(mine[i].key, Merge(mine[i].value, entry.value))] else mine + [entry]
  }

  lemma WithEntryFinds(mine: seq<Entry>, entry: Entry, key: string)
    ensures Find(WithEntry(mine, entry), key)
            == if key == entry.key then MergedValue(Find(mine, key), Some(entry.value)) else Find(mine, key)
  {
    var i := IndexOf(mine, entry.key);
    var value := if i < |mine| then Merge(mine[i].value, entry.value) else entry.value;
    assert WithEntry(mine, entry) == Insert(mine, entry.key, value);
    InsertFinds(mine, entry.key, value, key);
  }

  /** One key of a merge: the value both sides decide together. */
  lemma {:induction false} MergedFinds(mine: seq<Entry>, theirs: seq<Entry>, key: string)
    requires UniqueKeys(theirs)
    ensures Find(MergeEntries(mine, theirs), key) == MergedValue(Find(mine, key), Find(theirs, key))
    decreases theirs
  {
    if theirs != [] {
      var first, rest := theirs[0], theirs[1..];
      WithEntryFinds(mine, first, key);
      MergedFinds(WithEntry(mine, first), rest, key);
      if key == first.key {
        HasKeys(rest, key);
      } else {
        assert theirs == [first] + rest;
        FindAppend([first], rest, key);
      }
    }
  }

  lemma WithEntryKeys(mine: seq<Entry>, entry: Entry, key: string)
    ensures Keys(WithEntry(mine, entry)) == Keys(mine) + if Has(mine, entry.key) then [] else [entry.key]
    ensures key != entry.key ==> (Has(WithEntry(mine, entry), key) <==> Has(mine, key))
  {
    HasKeys(mine, key);
    HasKeys(WithEntry(mine, entry), key);
  }

  /** First-seen positions: every key of the target where it was, then the new ones in source order. */
  lemma {:induction false} MergedKeys(mine: seq<Entry>, theirs: seq<Entry>)
    requires UniqueKeys(theirs)
    ensures Keys(MergeEntries(mine, theirs)) == Keys(mine) + NewKeys(mine, theirs)
    decreases theirs
  {
    if theirs != [] {
      var first, rest := theirs[0], theirs[1..];
      var next := WithEntry(mine, first);
      MergedKeys(next, rest);
      WithEntryKeys(mine, first, first.key);
      forall j | 0 <= j < |rest| ensures Has(next, rest[j].key) == Has(mine, rest[j].key) {
        WithEntryKeys(mine, first, rest[j].key);
      }
      NewKeysSame(next, mine, rest);
      Regroup(Keys(mine), if Has(mine, first.key) then [] else [first.key], NewKeys(mine, rest));
    }
  }

  lemma NewKeysMember(mine: seq<Entry>, theirs: seq<Entry>, key: string)
    ensures key in NewKeys(mine, theirs) <==> Has(theirs, key) && !Has(mine, key)
  {
    HasKeys(theirs, key);
    if theirs != [] {
      NewKeysMember(mine, theirs[1..], key);
      HasKeys(theirs[1..], key);
      assert theirs == [theirs[0]] + theirs[1..];
    }
  }

  lemma NewKeysUnique(mine: seq<Entry>, theirs: seq<Entry>)
    requires UniqueKeys(theirs)
    ensures forall i, j :: 0 <= i < j < |NewKeys(mine, theirs)| ==> NewKeys(mine, theirs)[i] != NewKeys(mine, theirs)[j]
  {
    if theirs != [] {
      NewKeysUnique(mine, theirs[1..]);
      NewKeysMember(mine, theirs[1..], theirs[0].key);
      HasKeys(theirs[1..], theirs[0].key);
    }
  }

  lemma MergedUnique(mine: seq<Entry>, theirs: seq<Entry>)
    requires UniqueKeys(mine) && UniqueKeys(theirs)
    ensures UniqueKeys(MergeEntries(mine, theirs))
  {
    var after := MergeEntries(mine, theirs);
    MergedKeys(mine, theirs);
    NewKeysUnique(mine, theirs);
    forall i, j | 0 <= i < j < |after| ensures after[i].key != after[j].key {
      assert after[i].key == Keys(after)[i] && after[j].key == Keys(after)[j];
      if i < |mine| <= j {
        NewKeysMember(mine, theirs, after[j].key);
        HasKeys(mine, after[i].key);
      }
    }
  }

  /** Deep merge keeps keys unique at every level. */
  lemma {:induction false} MergeWellFormed(target: Json, source: Json)
    requires WellFormed(target) && WellFormed(source)
    ensures WellFormed(Merge(target, source))
    decreases source
  {
    if target.Object? && source.Object? {
      var mine, theirs := target.entries, source.entries;
      var after := MergeEntries(mine, theirs);
      MergedUnique(mine, theirs);
      forall i | 0 <= i < |after| ensures WellFormed(after[i].value) {
        var key := after[i].key;
        IndexOfUnique(after, i);
        MergedFinds(mine, theirs, key);
        var a, b := IndexOf(mine, key), IndexOf(theirs, key);
        if a < |mine| && b < |theirs| {
          MergeWellFormed(mine[a].value, theirs[b].value);
        }
      }
    }
  }

  lemma NoNewKeys(mine: seq<Entry>, theirs: seq<Entry>)
    requires forall i :: 0 <= i < |theirs| ==> Has(mine, theirs[i].key)
    ensures NewKeys(mine, theirs) == []
  {}

  lemma NewKeysOfMerged(mine: seq<Entry>, theirs: seq<Entry>)
    requires UniqueKeys(theirs)
    ensures NewKeys(MergeEntries(mine, theirs), theirs) == []
  {
    forall i | 0 <= i < |theirs| ensures Has(MergeEntries(mine, theirs), theirs[i].key) {
      MergedFinds(mine, theirs, theirs[i].key);
      HasKeys(theirs, theirs[i].key);
    }
    NoNewKeys(MergeEntries(mine, theirs), theirs);
  }

  /** A document overlaid on itself is itself. */
  lemma {:induction false} MergeSelf(json: Json)
    requires WellFormed(json)
    ensures Merge(json, json) == json
  {
    if json.Object? {
      var e := json.entries;
      var after := MergeEntries(e, e);
      MergedKeys(e, e);
      forall i | 0 <= i < |e| ensures Has(e, e[i].key) && Find(after, e[i].key) == Find(e, e[i].key) {
        HasKeys(e, e[i].key);
        MergedFinds(e, e, e[i].key);
        IndexOfUnique(e, i);
        MergeSelf(e[i].value);
      }
      NoNewKeys(e, e);
      SameEntries(e, after);
    }
  }

  /** Overlaying one file a second time changes nothing. */
  lemma {:induction false} MergeTwice(target: Json, source: Json)
    requires WellFormed(target) && WellFormed(source)
    ensures Merge(Merge(target, source), source) == Merge(target, source)
    decreases source
  {
    if source.Object? && !target.Object? {
      MergeSelf(source);
    } else if source.Object? {
      var mine, theirs := target.entries, source.entries;
      var once := MergeEntries(mine, theirs);
      var twice := MergeEntries(once, theirs);
      MergedUnique(mine, theirs);
      MergedKeys(once, theirs);
      NewKeysOfMerged(mine, theirs);
      forall i | 0 <= i < |once| ensures Find(once, once[i].key) == Find(twice, once[i].key) {
        var key := once[i].key;
        MergedFinds(once, theirs, key);
        MergedFinds(mine, theirs, key);
        var a, b := IndexOf(mine, key), IndexOf(theirs, key);
        if b < |theirs| {
          if a < |mine| {
            MergeTwice(mine[a].value, theirs[b].value);
          } else {
            MergeSelf(theirs[b].value);
          }
        }
      }
      SameEntries(once, twice);
    }
  }

  /** `json` says nothing about what lies at `path`: the walk stops at an object that lacks the next key. */
  ghost predicate Silent(json: Json, path: Path)
    decreases |path|
  {
    path != [] && path[0].Key? && json.Object?
    && (Find(json.entries, path[0].key).None? || Silent(Find(json.entries, path[0].key).value, path[1..]))
  }

  /** One step down a merge of two objects. */
  lemma AtMerged(target: Json, source: Json, path: Path)
    requires target.Object? && source.Object? && UniqueKeys(source.entries)
    requires path != [] && path[0].Key?
    ensures At(Merge(target, source), path)
            == (var child := MergedValue(Find(target.entries, path[0].key), Find(source.entries, path[0].key));
                if child.None? then None else At(child.value, path[1..]))
  {
    MergedFinds(target.entries, source.entries, path[0].key);
    var merged := Merge(target, source);
    assert Get(merged, path[0].key) == Find(merged.entries, path[0].key);
  }

  predicate KeysOnly(path: Path) {
    forall i :: 0 <= i < |path| ==> path[i].Key?
  }

  /**
   * Right-biased on every path the source spells: what is there is the source's value over the target's,
   * which is the source's own unless both are objects. A path through a list leads where the source has it.
   */
  lemma {:induction false} RightBiased(target: Json, source: Json, path: Path)
    requires WellFormed(target) && WellFormed(source) && At(source, path).Some?
    ensures KeysOnly(path) ==>
              At(Merge(target, source), path)
              == if At(target, path).Some? then Some(Merge(At(target, path).value, At(source, path).value))
                 else At(source, path)
    ensures !At(source, path).value.Object? ==> At(Merge(target, source), path) == At(source, path)
    decreases |path|
  {
    if path != [] && target.Object? && source.Object? && path[0].Key? {
      AtMerged(target, source, path);
      var a, b := Find(target.entries, path[0].key), Find(source.entries, path[0].key);
      if a.Some? && b.Some? {
        RightBiased(a.value, b.value, path[1..]);
        assert KeysOnly(path) ==> KeysOnly(path[1..]);
      }
    }
  }

  /** What the source is silent about stands, under a target that is a table there. */
  lemma {:induction false} SilenceKeeps(target: Json, source: Json, path: Path)
    requires WellFormed(target) && WellFormed(source)
    requires Silent(source, path)
    ensures At(Merge(target, source), path) == At(if target.Object? then target else source, path)
    decreases |path|
  {
    if target.Object? {
      AtMerged(target, source, path);
      var a, b := Find(target.entries, path[0].key), Find(source.entries, path[0].key);
      if a.Some? && b.Some? {
        SilenceKeeps(a.value, b.value, path[1..]);
        if !a.value.Object? {
          SilentMisses(b.value, path[1..]);
          NoPathThrough(a.value, path[1..]);
        }
      } else if b.Some? {
        SilentMisses(b.value, path[1..]);
      }
    }
  }

  lemma SilentMisses(json: Json, path: Path)
    requires Silent(json, path)
    ensures At(json, path).None?
    decreases |path|
  {
    if Find(json.entries, path[0].key).Some? {
      SilentMisses(Find(json.entries, path[0].key).value, path[1..]);
    }
  }

  lemma NoPathThrough(json: Json, path: Path)
    requires !json.Object? && path != [] && path[0].Key?
    ensures At(json, path).None?
  {}

  /** Overlaying `source` on `target` gives `source` back: it leaves nothing of the target standing. */
  ghost predicate Absorbs(source: Json, target: Json)
    decreases source
  {
    target.Object? && source.Object? ==>
      && Keys(target.entries) <= Keys(source.entries)
      && forall i :: 0 <= i < |target.entries| ==>
         i < |source.entries| && Absorbs(source.entries[i].value, target.entries[i].value)
  }

  lemma {:induction false} AbsorbsExactly(target: Json, source: Json)
    requires WellFormed(target) && WellFormed(source)
    ensures Merge(target, source) == source <==> Absorbs(source, target)
    decreases source
  {
    if target.Object? && source.Object? {
      var mine, theirs := target.entries, source.entries;
      var after := MergeEntries(mine, theirs);
      MergedKeys(mine, theirs);
      if Keys(mine) <= Keys(theirs) {
        forall i | 0 <= i < |mine|
          ensures i < |theirs|
                  && (Absorbs(theirs[i].value, mine[i].value)
                      <==> Find(after, mine[i].key) == Find(theirs, mine[i].key))
        {
          assert mine[i].key == Keys(mine)[i] == Keys(theirs)[i] == theirs[i].key;
          IndexOfUnique(mine, i);
          IndexOfUnique(theirs, i);
          MergedFinds(mine, theirs, mine[i].key);
          AbsorbsExactly(mine[i].value, theirs[i].value);
        }
        if Absorbs(source, target) {
          MergedAppends(mine, theirs);
          forall i | 0 <= i < |after| ensures Find(after, after[i].key) == Find(theirs, after[i].key) {
            var key := after[i].key;
            MergedFinds(mine, theirs, key);
            assert key == Keys(after)[i];
          }
          MergedUnique(mine, theirs);
          SameEntries(after, theirs);
        }
      } else {
        assert Keys(after)[..|mine|] == Keys(mine);
      }
    }
  }

  lemma MergedAppends(mine: seq<Entry>, theirs: seq<Entry>)
    requires UniqueKeys(mine) && UniqueKeys(theirs) && Keys(mine) <= Keys(theirs)
    ensures Keys(MergeEntries(mine, theirs)) == Keys(theirs)
  {
    MergedKeys(mine, theirs);
    forall i | 0 <= i < |mine| ensures mine[i].key == theirs[i].key {
      assert mine[i].key == Keys(mine)[i] == Keys(theirs)[i];
    }
    forall i | 0 <= i < |theirs| ensures Has(mine, theirs[i].key) <==> i < |mine| {
      HasKeys(mine, theirs[i].key);
    }
    NewKeysSplit(mine, theirs, |mine|);
    assert Keys(theirs) == Keys(mine) + Keys(theirs[|mine|..]);
  }

  lemma NewKeysSplit(mine: seq<Entry>, theirs: seq<Entry>, n: nat)
    requires n <= |theirs|
    requires forall i :: 0 <= i < |theirs| ==> (Has(mine, theirs[i].key) <==> i < n)
    ensures NewKeys(mine, theirs) == Keys(theirs[n..])
  {
    if theirs != [] {
      NewKeysSplit(mine, theirs[1..], if n == 0 then 0 else n - 1);
      if n == 0 {
        assert Keys(theirs) == [theirs[0].key] + Keys(theirs[1..]);
        assert theirs[0..] == theirs && theirs[1..][0..] == theirs[1..];
      } else {
        assert theirs[1..][n - 1..] == theirs[n..];
      }
    }
  }

  /**
   * When three tiers may be folded in either grouping. The one thing that can tell them apart is a
   * value in the middle that is not an object, between two that are: the first grouping forgets what
   * lay under it, the second does not, unless the last tier leaves nothing of it standing anyway.
   */
  ghost predicate Regroups(a: Json, b: Json, c: Json)
    decreases c
  {
    c.Object? && a.Object? ==>
      if b.Object? then
        forall i :: 0 <= i < |c.entries| && Has(a.entries, c.entries[i].key) && Has(b.entries, c.entries[i].key) ==>
          Regroups(Find(a.entries, c.entries[i].key).value, Find(b.entries, c.entries[i].key).value, c.entries[i].value)
      else Absorbs(c, a)
  }

  /** Associative exactly when no such middle value is aligned between two objects the last does not absorb. */
  lemma {:induction false} MergeAssociates(a: Json, b: Json, c: Json)
    requires WellFormed(a) && WellFormed(b) && WellFormed(c)
    ensures Merge(Merge(a, b), c) == Merge(a, Merge(b, c)) <==> Regroups(a, b, c)
    decreases c
  {
    if c.Object? && a.Object? {
      if !b.Object? {
        AbsorbsExactly(a, c);
      } else {
        AssociatesEntries(a.entries, b.entries, c.entries);
        var x, y, z := a.entries, b.entries, c.entries;
        forall i | 0 <= i < |z| && Has(x, z[i].key) && Has(y, z[i].key)
          ensures Regroups(Find(x, z[i].key).value, Find(y, z[i].key).value, z[i].value)
                  <==> Merge(Merge(Find(x, z[i].key).value, Find(y, z[i].key).value), z[i].value)
                       == Merge(Find(x, z[i].key).value, Merge(Find(y, z[i].key).value, z[i].value))
        {
          MergeAssociates(Find(x, z[i].key).value, Find(y, z[i].key).value, z[i].value);
        }
      }
    }
  }

  /** The values of the keys all three share regroup. */
  ghost predicate SharedRegroup(x: seq<Entry>, y: seq<Entry>, z: seq<Entry>) {
    forall i :: 0 <= i < |z| && Has(x, z[i].key) && Has(y, z[i].key) ==>
      Merge(Merge(Find(x, z[i].key).value, Find(y, z[i].key).value), z[i].value)
      == Merge(Find(x, z[i].key).value, Merge(Find(y, z[i].key).value, z[i].value))
  }

  lemma AssociatesFinds(x: seq<Entry>, y: seq<Entry>, z: seq<Entry>, key: string)
    requires UniqueKeys(x) && UniqueKeys(y) && UniqueKeys(z)
    ensures Find(MergeEntries(MergeEntries(x, y), z), key)
            == MergedValue(MergedValue(Find(x, key), Find(y, key)), Find(z, key))
    ensures Find(MergeEntries(x, MergeEntries(y, z)), key)
            == MergedValue(Find(x, key), MergedValue(Find(y, key), Find(z, key)))
  {
    MergedUnique(y, z);
    MergedFinds(MergeEntries(x, y), z, key);
    MergedFinds(x, y, key);
    MergedFinds(x, MergeEntries(y, z), key);
    MergedFinds(y, z, key);
  }

  /** Keys and positions always regroup; only values of keys all three share can differ. */
  lemma AssociatesEntries(x: seq<Entry>, y: seq<Entry>, z: seq<Entry>)
    requires UniqueKeys(x) && UniqueKeys(y) && UniqueKeys(z)
    ensures MergeEntries(MergeEntries(x, y), z) == MergeEntries(x, MergeEntries(y, z)) <==> SharedRegroup(x, y, z)
  {
    var xy, yz := MergeEntries(x, y), MergeEntries(y, z);
    var left, right := MergeEntries(xy, z), MergeEntries(x, yz);
    MergedUnique(x, y);
    MergedUnique(y, z);
    MergedUnique(xy, z);
    AssociatesKeys(x, y, z);
    forall key ensures
      Find(left, key) == MergedValue(MergedValue(Find(x, key), Find(y, key)), Find(z, key)) &&
      Find(right, key) == MergedValue(Find(x, key), MergedValue(Find(y, key), Find(z, key)))
    {
      AssociatesFinds(x, y, z, key);
    }
    forall i | 0 <= i < |z| ensures Find(z, z[i].key) == Some(z[i].value) {
      IndexOfUnique(z, i);
    }
    if SharedRegroup(x, y, z) {
      forall i | 0 <= i < |left| ensures Find(left, left[i].key) == Find(right, left[i].key) {
        var key := left[i].key;
        var n := IndexOf(z, key);
        if n < |z| {
          assert z[n].key == key;
        }
      }
      SameEntries(left, right);
    }
  }

  lemma LeftKeys(x: seq<Entry>, y: seq<Entry>, z: seq<Entry>)
    requires UniqueKeys(y) && UniqueKeys(z)
    ensures Keys(MergeEntries(MergeEntries(x, y), z))
            == Keys(x) + Without(x, Keys(y)) + Without(MergeEntries(x, y), Keys(z))
  {
    MergedKeys(x, y);
    MergedKeys(MergeEntries(x, y), z);
    NewKeysByName(x, y);
    NewKeysByName(MergeEntries(x, y), z);
  }

  lemma RightKeys(x: seq<Entry>, y: seq<Entry>, z: seq<Entry>)
    requires UniqueKeys(y) && UniqueKeys(z)
    ensures Keys(MergeEntries(x, MergeEntries(y, z))) == Keys(x) + Without(x, Keys(y) + Without(y, Keys(z)))
  {
    MergedUnique(y, z);
    MergedKeys(y, z);
    MergedKeys(x, MergeEntries(y, z));
    NewKeysByName(x, MergeEntries(y, z));
    NewKeysByName(y, z);
  }

  lemma AssociatesKeys(x: seq<Entry>, y: seq<Entry>, z: seq<Entry>)
    requires UniqueKeys(y) && UniqueKeys(z)
    ensures Keys(MergeEntries(MergeEntries(x, y), z)) == Keys(MergeEntries(x, MergeEntries(y, z)))
  {
    var xy := MergeEntries(x, y);
    LeftKeys(x, y, z);
    RightKeys(x, y, z);
    Without2(x, Keys(y), Without(y, Keys(z)));
    WithoutTwice(x, y, xy, Keys(z));
    Regroup(Keys(x), Without(x, Keys(y)), Without(xy, Keys(z)));
  }

  /** `keys` minus those `entries` holds. */
  function Without(entries: seq<Entry>, keys: seq<string>): seq<string> {
    if keys == [] then []
    else (if Has(entries, keys[0]) then [] else [keys[0]]) + Without(entries, keys[1..])
  }

  lemma NewKeysByName(mine: seq<Entry>, theirs: seq<Entry>)
    ensures NewKeys(mine, theirs) == Without(mine, Keys(theirs))
  {
    if theirs != [] {
      NewKeysByName(mine, theirs[1..]);
      assert Keys(theirs)[1..] == Keys(theirs[1..]);
    }
  }

  lemma Without2(entries: seq<Entry>, a: seq<string>, b: seq<string>)
    ensures Without(entries, a + b) == Without(entries, a) + Without(entries, b)
  {
    if a == [] {
      assert a + b == b;
    } else {
      Without2(entries, a[1..], b);
      assert (a + b)[0] == a[0] && (a + b)[1..] == a[1..] + b;
      Regroup(if Has(entries, a[0]) then [] else [a[0]], Without(entries, a[1..]), Without(entries, b));
    }
  }

  lemma WithoutTwice(x: seq<Entry>, y: seq<Entry>, xy: seq<Entry>, keys: seq<string>)
    requires UniqueKeys(y) && xy == MergeEntries(x, y)
    ensures Without(x, Without(y, keys)) == Without(xy, keys)
  {
    if keys != [] {
      WithoutTwice(x, y, xy, keys[1..]);
      MergedFinds(x, y, keys[0]);
      var inner := if Has(y, keys[0]) then [] else [keys[0]];
      Without2(x, inner, Without(y, keys[1..]));
    }
  }

  lemma OneKey(key: string, a: Json, b: Json, c: Json)
    ensures Regroups(Object([Entry(key, a)]), Object([Entry(key, b)]), Object([Entry(key, c)])) ==> Regroups(a, b, c)
  {
    var x, y, z := [Entry(key, a)], [Entry(key, b)], [Entry(key, c)];
    assert IndexOf(x, z[0].key) == 0 && IndexOf(y, z[0].key) == 0;
  }

  /** Two groupings that differ: the middle tier replaces a table the last tier spells again. */
  lemma RegroupingCanDiffer(key: string, first: string, last: string)
    requires first != last
    ensures
      var a := Object([Entry(key, Object([Entry(first, Null)]))]);
      var b := Object([Entry(key, Bool(false))]);
      var c := Object([Entry(key, Object([Entry(last, Null)]))]);
      Merge(Merge(a, b), c) != Merge(a, Merge(b, c))
  {
    var under, over := Object([Entry(first, Null)]), Object([Entry(last, Null)]);
    assert Keys(under.entries)[0] == first && Keys(over.entries)[0] == last;
    OneKey(key, under, Bool(false), over);
    MergeAssociates(Object([Entry(key, under)]), Object([Entry(key, Bool(false))]), Object([Entry(key, over)]));
  }
}
