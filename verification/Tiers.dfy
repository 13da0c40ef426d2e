/** Overlaying config files tier by tier: the merge as it runs, and the one array that is a union. */
module Tiers {
  import opened Lists
  import opened Optional
  import opened JsonTree
  import opened DeepMerge

  const INSTRUCTIONS := "instructions"

  /** `merge`, as it runs: each source entry merged into the slot its key holds, or pushed. */
  method MergeInto(target: Json, source: Json) returns (merged: Json)
    ensures merged == Merge(target, source)
    decreases source
  {
    if target.Object? && source.Object? {
      var mine, theirs := target.entries, source.entries;
      for n := 0 to |theirs|
        invariant MergeEntries(mine, theirs[n..]) == MergeEntries(target.entries, theirs)
      {
        var i := IndexOf(mine, theirs[n].key);
        assert theirs[n..][0] == theirs[n] && theirs[n..][1..] == theirs[n + 1..];
        if i < |mine| {
          var value := MergeInto(mine[i].value, theirs[n].value);
          mine := mine[i := Entry(mine[i].key, value)];
        } else {
          mine := mine + [theirs[n]];
        }
      }
      return Object(mine);
    }
    return source;
  }

  /** Both lists in order, the second's repeats dropped. */
  function Union(mine: seq<Json>, theirs: seq<Json>): seq<Json>
    decreases theirs
  {
    if theirs == [] then mine
    else Union(if theirs[0] in mine then mine else mine + [theirs[0]], theirs[1..])
  }

  function InstructionUnion(target: Json, source: Json): Option<seq<Json>> {
    var mine, theirs := Get(target, INSTRUCTIONS), Get(source, INSTRUCTIONS);
    if mine.Some? && mine.value.Array? && theirs.Some? && theirs.value.Array?
    then Some(Union(mine.value.elements, theirs.value.elements))
    else None
  }

  method UnionOf(mine: seq<Json>, theirs: seq<Json>) returns (union: seq<Json>)
    ensures union == Union(mine, theirs)
  {
    union := mine;
    for n := 0 to |theirs|
      invariant Union(union, theirs[n..]) == Union(mine, theirs)
    {
      assert theirs[n..][0] == theirs[n] && theirs[n..][1..] == theirs[n + 1..];
      if theirs[n] !in union {
        union := union + [theirs[n]];
      }
    }
  }

  function MergeDocument(target: Json, source: Json, concat: bool): Json {
    var union := if concat then InstructionUnion(target, source) else None;
    var merged := Merge(target, source);
    if union.Some? && merged.Object? && Has(merged.entries, INSTRUCTIONS)
    then Object(Insert(merged.entries, INSTRUCTIONS, Array(union.value)))
    else merged
  }

  /** The project tier: every file from the outermost in, each over the ones before it. */
  function FoldTiers(config: Json, files: seq<Json>): Json
    decreases files
  {
    if files == [] then config else FoldTiers(MergeDocument(config, files[0], true), files[1..])
  }

  /** The first occurrence of every element, in order. */
  function Firsts(list: seq<Json>): (firsts: seq<Json>)
    ensures forall x :: x in firsts <==> x in list
  {
    if list == [] then []
    else
      var n := |list| - 1;
      assert list == list[..n] + [list[n]];
      Firsts(list[..n]) + (if list[n] in list[..n] then [] else [list[n]])
  }

  predicate NoRepeats(list: seq<Json>) {
    forall i, j :: 0 <= i < j < |list| ==> list[i] != list[j]
  }

  lemma NoRepeatsLonger(list: seq<Json>, last: Json)
    ensures NoRepeats(list + [last]) <==> NoRepeats(list) && last !in list
  {
    var longer := list + [last];
    assert longer[|list|] == last && forall i :: 0 <= i < |list| ==> longer[i] == list[i];
    if last in list {
      var i :| 0 <= i < |list| && list[i] == last;
      assert longer[i] == longer[|list|];
    }
  }

  lemma {:induction false} FirstsHaveNoRepeats(list: seq<Json>)
    ensures NoRepeats(Firsts(list)) && (NoRepeats(list) ==> Firsts(list) == list)
  {
    if list != [] {
      var n := |list| - 1;
      FirstsHaveNoRepeats(list[..n]);
      assert list == list[..n] + [list[n]];
      NoRepeatsLonger(list[..n], list[n]);
      NoRepeatsLonger(Firsts(list[..n]), list[n]);
    }
  }

  /** The elements of `list` met neither in `before` nor earlier in `list`. */
  function Added(before: seq<Json>, list: seq<Json>): seq<Json>
    decreases list
  {
    if list == [] then []
    else (if list[0] in before then [] else [list[0]]) + Added(before + [list[0]], list[1..])
  }

  lemma FirstsOneMore(before: seq<Json>, last: Json)
    ensures Firsts(before + [last]) == Firsts(before) + if last in before then [] else [last]
  {
    assert (before + [last])[..|before|] == before;
  }

  lemma {:induction false} FirstsSplit(before: seq<Json>, list: seq<Json>)
    ensures Firsts(before + list) == Firsts(before) + Added(before, list)
    decreases list
  {
    if list == [] {
      assert before + list == before;
    } else {
      var first, rest := list[0], list[1..];
      var own := if first in before then [] else [first];
      assert before + list == before + [first] + rest;
      FirstsSplit(before + [first], rest);
      FirstsOneMore(before, first);
      Regroup(Firsts(before), own, Added(before + [first], rest));
    }
  }

  lemma {:induction false} AddedSplit(before: seq<Json>, a: seq<Json>, b: seq<Json>)
    ensures Added(before, a + b) == Added(before, a) + Added(before + a, b)
    decreases a
  {
    if a == [] {
      assert a + b == b && before + a == before;
    } else {
      AddedSplit(before + [a[0]], a[1..], b);
      assert (a + b)[0] == a[0] && (a + b)[1..] == a[1..] + b;
      assert before + a == before + [a[0]] + a[1..];
      Regroup(if a[0] in before then [] else [a[0]], Added(before + [a[0]], a[1..]), Added(before + a, b));
    }
  }

  /** A union keeps the first list whole and adds what the second meets for the first time. */
  lemma {:induction false} UnionAppends(mine: seq<Json>, theirs: seq<Json>, before: seq<Json>)
    requires forall x :: x in mine <==> x in before
    ensures Union(mine, theirs) == mine + Added(before, theirs)
    ensures forall x :: x in Union(mine, theirs) <==> x in before + theirs
    decreases theirs
  {
    if theirs != [] {
      var next := if theirs[0] in mine then mine else mine + [theirs[0]];
      UnionAppends(next, theirs[1..], before + [theirs[0]]);
      assert before + theirs == before + [theirs[0]] + theirs[1..];
    }
  }

  /** A document merge touches `instructions` and nothing else beyond what a merge does. */
  lemma DocumentFinds(target: Json, source: Json, key: string)
    requires target.Object? && source.Object? && UniqueKeys(source.entries)
    ensures MergeDocument(target, source, true).Object?
    ensures
      var mine, theirs := Find(target.entries, key), Find(source.entries, key);
      Get(MergeDocument(target, source, true), key) ==
      if key == INSTRUCTIONS && mine.Some? && mine.value.Array? && theirs.Some? && theirs.value.Array?
      then Some(Array(Union(mine.value.elements, theirs.value.elements)))
      else MergedValue(mine, theirs)
  {
    var merged := Merge(target, source);
    MergedFinds(target.entries, source.entries, key);
    MergedFinds(target.entries, source.entries, INSTRUCTIONS);
    var union := InstructionUnion(target, source);
    if union.Some? {
      InsertFinds(merged.entries, INSTRUCTIONS, Array(union.value), key);
    }
  }

  /** A file's own list; a file that has none contributes nothing. */
  function ListOf(file: Json): seq<Json> {
    var list := Get(file, INSTRUCTIONS);
    if list.Some? && list.value.Array? then list.value.elements else []
  }

  function AllLists(files: seq<Json>): seq<Json> {
    if files == [] then [] else ListOf(files[0]) + AllLists(files[1..])
  }

  predicate HoldsList(config: Json) {
    Get(config, INSTRUCTIONS).Some? && Get(config, INSTRUCTIONS).value.Array?
  }

  /** An object that spells `instructions` as an array or not at all. */
  predicate ListOrNone(tier: Json) {
    tier.Object? && (Has(tier.entries, INSTRUCTIONS) ==> HoldsList(tier))
  }

  ghost predicate ListsOnly(files: seq<Json>) {
    forall i :: 0 <= i < |files| ==> ListOrNone(files[i]) && UniqueKeys(files[i].entries)
  }

  lemma OneMoreFile(config: Json, file: Json, before: seq<Json>)
    requires HoldsList(config)
    requires ListOrNone(file) && UniqueKeys(file.entries)
    requires forall x :: x in ListOf(config) <==> x in before
    ensures
      var next := MergeDocument(config, file, true);
      && HoldsList(next)
      && ListOf(next) == ListOf(config) + Added(before, ListOf(file))
      && (forall x :: x in ListOf(next) <==> x in before + ListOf(file))
  {
    DocumentFinds(config, file, INSTRUCTIONS);
    UnionAppends(ListOf(config), ListOf(file), before);
  }

  /** Over a list, the files' lists follow it, each instruction once, where it is first met. */
  lemma {:induction false} FilesContinue(config: Json, files: seq<Json>, before: seq<Json>)
    requires HoldsList(config)
    requires ListsOnly(files)
    requires forall x :: x in ListOf(config) <==> x in before
    ensures Get(FoldTiers(config, files), INSTRUCTIONS)
            == Some(Array(ListOf(config) + Added(before, AllLists(files))))
    decreases files
  {
    if files == [] {
      assert ListOf(config) + Added(before, AllLists(files)) == ListOf(config);
    } else {
      OneMoreFile(config, files[0], before);
      var next, theirs := MergeDocument(config, files[0], true), ListOf(files[0]);
      FilesContinue(next, files[1..], before + theirs);
      AddedSplit(before, theirs, AllLists(files[1..]));
      Regroup(ListOf(config), Added(before, theirs), Added(before + theirs, AllLists(files[1..])));
    }
  }

  /** The first tier that spells a list; their number when none does. */
  function FirstList(tiers: seq<Json>): (k: nat)
    ensures k <= |tiers| && (k < |tiers| ==> HoldsList(tiers[k]))
    ensures forall i :: 0 <= i < k ==> !HoldsList(tiers[i])
  {
    FirstWhere(tiers, (tier: Json) => HoldsList(tier))
  }

  lemma FirstListNext(first: Json, rest: seq<Json>)
    ensures FirstList([first] + rest) == if HoldsList(first) then 0 else 1 + FirstList(rest)
  {
    assert ([first] + rest)[1..] == rest;
  }

  /** The list some tiers come to: the first one there is, then what the later ones add. */
  function Listed(tiers: seq<Json>): Option<Json> {
    if tiers == [] then None
    else if HoldsList(tiers[0]) then Some(Array(ListOf(tiers[0]) + Added(ListOf(tiers[0]), AllLists(tiers[1..]))))
    else Listed(tiers[1..])
  }

  lemma ListedNext(first: Json, rest: seq<Json>)
    ensures Listed([first] + rest)
            == if HoldsList(first) then Some(Array(ListOf(first) + Added(ListOf(first), AllLists(rest))))
               else Listed(rest)
  {
    assert ([first] + rest)[1..] == rest;
  }

  lemma {:induction false} FoldIsListed(config: Json, files: seq<Json>)
    requires ListOrNone(config) && ListsOnly(files)
    ensures Get(FoldTiers(config, files), INSTRUCTIONS) == Listed([config] + files)
    decreases |files|
  {
    ListedNext(config, files);
    if HoldsList(config) {
      FilesContinue(config, files, ListOf(config));
    } else if files != [] {
      var next := MergeDocument(config, files[0], true);
      DocumentFinds(config, files[0], INSTRUCTIONS);
      FoldIsListed(next, files[1..]);
      ListedNext(next, files[1..]);
      ListedNext(files[0], files[1..]);
      assert files == [files[0]] + files[1..];
    }
  }

  lemma {:induction false} ListedFromTheFirst(tiers: seq<Json>)
    ensures var k := FirstList(tiers);
            Listed(tiers) == if k == |tiers| then None
                             else Some(Array(ListOf(tiers[k]) + Added(ListOf(tiers[k]), AllLists(tiers[k + 1..]))))
  {
    if tiers != [] {
      FirstListNext(tiers[0], tiers[1..]);
      assert tiers == [tiers[0]] + tiers[1..];
      ListedFromTheFirst(tiers[1..]);
      var k := FirstList(tiers);
      assert 0 < k < |tiers| ==> tiers[1..][k..] == tiers[k + 1..];
    }
  }

  /**
   * Folding files over a config, whether or not the config spells a list: the first list there is stays
   * first and whole, and each instruction of the later ones is added once, where it is first met.
   */
  lemma TiersConcatenate(config: Json, files: seq<Json>)
    requires ListOrNone(config) && ListsOnly(files)
    ensures var tiers := [config] + files;
            var k := FirstList(tiers);
            Get(FoldTiers(config, files), INSTRUCTIONS)
            == if k == |tiers| then None
               else Some(Array(ListOf(tiers[k]) + Added(ListOf(tiers[k]), AllLists(tiers[k + 1..]))))
  {
    FoldIsListed(config, files);
    ListedFromTheFirst([config] + files);
  }

  lemma {:induction false} ListsFromTheFirst(tiers: seq<Json>)
    ensures var k := FirstList(tiers);
            AllLists(tiers) == if k == |tiers| then [] else ListOf(tiers[k]) + AllLists(tiers[k + 1..])
  {
    if tiers != [] {
      FirstListNext(tiers[0], tiers[1..]);
      assert tiers == [tiers[0]] + tiers[1..];
      ListsFromTheFirst(tiers[1..]);
    }
  }

  /** The folded list is the first occurrences of all lists in tier order exactly when the first list has no repeat. */
  lemma TiersAreFirsts(config: Json, files: seq<Json>)
    requires ListOrNone(config) && ListsOnly(files)
    ensures var tiers := [config] + files;
            var k := FirstList(tiers);
            k < |tiers| ==>
              (Get(FoldTiers(config, files), INSTRUCTIONS) == Some(Array(Firsts(AllLists(tiers))))
               <==> NoRepeats(ListOf(tiers[k])))
  {
    var tiers := [config] + files;
    var k := FirstList(tiers);
    TiersConcatenate(config, files);
    ListsFromTheFirst(tiers);
    if k < |tiers| {
      var first, later := ListOf(tiers[k]), AllLists(tiers[k + 1..]);
      FirstsSplit(first, later);
      FirstsHaveNoRepeats(first);
      if first + Added(first, later) == Firsts(first) + Added(first, later) {
        assert |Firsts(first)| == |first|;
        assert first == (first + Added(first, later))[..|first|] == Firsts(first);
      }
    }
  }

  /** Where the two sides are not both lists, nor both objects, the later file's value replaces the earlier one's. */
  lemma ReplacedWhenNotLists(target: Json, source: Json)
    requires target.Object? && source.Object? && UniqueKeys(source.entries)
    requires Has(source.entries, INSTRUCTIONS)
    requires var mine, theirs := Find(target.entries, INSTRUCTIONS), Find(source.entries, INSTRUCTIONS).value;
             mine.Some? ==> !(theirs.Array? && mine.value.Array?) && !(theirs.Object? && mine.value.Object?)
    ensures Get(MergeDocument(target, source, true), INSTRUCTIONS) == Find(source.entries, INSTRUCTIONS)
  {
    DocumentFinds(target, source, INSTRUCTIONS);
  }

  /** Overlaying files keeps keys distinct at every depth, so what is imported is a config like any other. */
  lemma DocumentWellFormed(target: Json, source: Json, concat: bool)
    requires WellFormed(target) && WellFormed(source)
    ensures WellFormed(MergeDocument(target, source, concat))
  {
    MergeWellFormed(target, source);
    var merged, union := Merge(target, source), if concat then InstructionUnion(target, source) else None;
    if union.Some? && merged.Object? && Has(merged.entries, INSTRUCTIONS) {
      var mine, theirs := Get(target, INSTRUCTIONS).value.elements, Get(source, INSTRUCTIONS).value.elements;
      UnionMembers(mine, theirs);
      InsertKeepsUnique(merged.entries, INSTRUCTIONS, Array(union.value));
      forall i | 0 <= i < |union.value| ensures WellFormed(union.value[i]) {
        assert union.value[i] in union.value;
        assert WellFormed(Array(mine)) && WellFormed(Array(theirs));
      }
      var after := Insert(merged.entries, INSTRUCTIONS, Array(union.value));
      forall i | 0 <= i < |after| ensures WellFormed(after[i].value) {
        assert after[i].value == Array(union.value) || (i < |merged.entries| && after[i] == merged.entries[i]);
      }
    }
  }

  lemma {:induction false} UnionMembers(mine: seq<Json>, theirs: seq<Json>)
    ensures forall x <- Union(mine, theirs) :: x in mine || x in theirs
    decreases theirs
  {
    if theirs != [] {
      var next := if theirs[0] in mine then mine else mine + [theirs[0]];
      UnionMembers(next, theirs[1..]);
      forall x <- Union(next, theirs[1..]) ensures x in mine || x in theirs {
        assert theirs == [theirs[0]] + theirs[1..];
        assert x in next ==> x in mine || x == theirs[0];
      }
    }
  }

  lemma {:induction false} FoldWellFormed(config: Json, files: seq<Json>)
    requires WellFormed(config) && forall i :: 0 <= i < |files| ==> WellFormed(files[i])
    ensures WellFormed(FoldTiers(config, files))
    decreases files
  {
    if files != [] {
      DocumentWellFormed(config, files[0], true);
      FoldWellFormed(MergeDocument(config, files[0], true), files[1..]);
    }
  }

  /** `merge_document` over the project files, as `discover` runs it. */
  method MergeProject(config: Json, files: seq<Json>) returns (folded: Json)
    ensures folded == FoldTiers(config, files)
  {
    folded := config;
    for n := 0 to |files|
      invariant FoldTiers(folded, files[n..]) == FoldTiers(config, files)
    {
      assert files[n..][0] == files[n] && files[n..][1..] == files[n + 1..];
      var union := None;
      var mine, theirs := Get(folded, INSTRUCTIONS), Get(files[n], INSTRUCTIONS);
      if mine.Some? && mine.value.Array? && theirs.Some? && theirs.value.Array? {
        var list := UnionOf(mine.value.elements, theirs.value.elements);
        union := Some(list);
      }
      var merged := MergeInto(folded, files[n]);
      if union.Some? && merged.Object? && Has(merged.entries, INSTRUCTIONS) {
        merged := Object(Insert(merged.entries, INSTRUCTIONS, Array(union.value)));
      }
      folded := merged;
    }
  }

  /** A list that repeats a path itself is kept as it is, when it is the first there. */
  lemma FirstRepeatStays(path: Json)
    ensures Get(FoldTiers(Object([]), [Object([Entry(INSTRUCTIONS, Array([path, path]))])]), INSTRUCTIONS)
            == Some(Array([path, path]))
  {
    var list := [path, path];
    var file := Object([Entry(INSTRUCTIONS, Array(list))]);
    assert HoldsList(file) && ListOf(file) == list && !HoldsList(Object([])) && ListOrNone(Object([]));
    FoldIsListed(Object([]), [file]);
    ListedNext(Object([]), [file]);
    ListedNext(file, []);
    assert [file] + [] == [file] && Added(list, AllLists([])) == [] && list + [] == list;
  }
}
