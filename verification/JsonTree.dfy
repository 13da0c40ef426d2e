/** JSON documents whose objects keep their keys in the order they were written. */
module JsonTree {
  import opened Lists
  import opened Optional

  /** A number keeps its spelling; what it can become is decided on the text. */
  datatype Json =
    | Null
    | Bool(flag: bool)
    | Number(spelled: string)
    | Str(text: string)
    | Array(elements: seq<Json>)
    | Object(entries: seq<Entry>)

  datatype Entry = Entry(key: string, value: Json)

  /** One step of a path. Structured, so a key holding '.' or '[' cannot be mistaken for two steps. */
  datatype Step = Key(key: string) | Index(index: nat)

  type Path = seq<Step>

  predicate Scalar(json: Json) {
    !json.Array? && !json.Object?
  }

  /** The position of the first entry spelled `key`, or the length when there is none. */
  function IndexOf(entries: seq<Entry>, key: string): (i: nat)
    ensures i <= |entries|
    ensures i < |entries| ==> entries[i].key == key
    ensures forall j :: 0 <= j < i ==> entries[j].key != key
  {
    FirstWhere(entries, (entry: Entry) => entry.key == key)
  }

  predicate Has(entries: seq<Entry>, key: string) {
    IndexOf(entries, key) < |entries|
  }

  function Find(entries: seq<Entry>, key: string): Option<Json> {
    var i := IndexOf(entries, key);
    if i < |entries| then Some(entries[i].value) else None
  }

  function Keys(entries: seq<Entry>): (keys: seq<string>)
    ensures |keys| == |entries|
    ensures forall i :: 0 <= i < |keys| ==> keys[i] == entries[i].key
  {
    seq(|entries|, i requires 0 <= i < |entries| => entries[i].key)
  }

  ghost predicate UniqueKeys(entries: seq<Entry>) {
    forall i, j :: 0 <= i < j < |entries| ==> entries[i].key != entries[j].key
  }

  /** Keys are unique in every object, at every depth. */
  ghost predicate WellFormed(json: Json) {
    match json
    case Array(elements) => forall i :: 0 <= i < |elements| ==> WellFormed(elements[i])
    case Object(entries) => UniqueKeys(entries) && forall i :: 0 <= i < |entries| ==> WellFormed(entries[i].value)
    case _ => true
  }

  /** The value under `key` when `json` is an object that has one. */
  function Get(json: Json, key: string): Option<Json> {
    if json.Object? then Find(json.entries, key) else None
  }

  function At(json: Json, path: Path): Option<Json>
    decreases |path|
  {
    if path == [] then Some(json)
    else match path[0]
      case Key(key) =>
        (match Get(json, key)
         case None => None
         case Some(child) => At(child, path[1..]))
      case Index(index) =>
        if json.Array? && index < |json.elements| then At(json.elements[index], path[1..]) else None
  }

  /** Puts `value` under `key`, at the position a key of that name already holds. */
  function Insert(entries: seq<Entry>, key: string, value: Json): (r: seq<Entry>) {
    var i := IndexOf(entries, key);
    if i < |entries| then entries[i := Entry(key, value)] else entries + [Entry(key, value)]
  }

  /** An object of these entries, unless there are none. */
  function Unless(entries: seq<Entry>): Option<Json> {
    if entries == [] then None else Some(Object(entries))
  }

  lemma IndexOfUnique(entries: seq<Entry>, i: nat)
    requires UniqueKeys(entries) && i < |entries|
    ensures IndexOf(entries, entries[i].key) == i
  {}

  lemma InsertFinds(entries: seq<Entry>, key: string, value: Json, other: string)
    ensures Find(Insert(entries, key, value), other) == if other == key then Some(value) else Find(entries, other)
  {
    var after := Insert(entries, key, value);
    var i, j := IndexOf(entries, other), IndexOf(after, other);
    if IndexOf(entries, key) < |entries| {
      assert forall k :: 0 <= k < |entries| ==> after[k].key == entries[k].key;
    } else {
      assert forall k :: 0 <= k < |entries| ==> after[k] == entries[k];
      assert after[|entries|] == Entry(key, value);
    }
    assert i < j ==> i == |entries|;
    assert j < i ==> j == |entries|;
  }

  lemma InsertKeepsUnique(entries: seq<Entry>, key: string, value: Json)
    requires UniqueKeys(entries)
    ensures UniqueKeys(Insert(entries, key, value))
  {}

  lemma FindAppend(a: seq<Entry>, b: seq<Entry>, key: string)
    ensures Find(a + b, key) == if Has(a, key) then Find(a, key) else Find(b, key)
  {
    var c := a + b;
    var i, j, k := IndexOf(c, key), IndexOf(a, key), IndexOf(b, key);
    assert forall n :: 0 <= n < |b| ==> c[|a| + n] == b[n];
    if j < |a| {
      assert c[j] == a[j];
      assert i == j;
    } else if k < |b| {
      assert c[|a| + k].key == key;
      assert i >= |a|;
      assert b[i - |a|].key == key;
      assert i == |a| + k;
    } else {
      forall n | 0 <= n < |c| ensures c[n].key != key {
        assert c[n] == if n < |a| then a[n] else b[n - |a|];
      }
    }
  }

  /** Two well-keyed entry lists with the same keys in the same order and equal values are one list. */
  lemma SameEntries(a: seq<Entry>, b: seq<Entry>)
    requires UniqueKeys(a) && Keys(a) == Keys(b)
    requires forall i :: 0 <= i < |a| ==> Find(a, a[i].key) == Find(b, a[i].key)
    ensures a == b
  {
    assert |a| == |Keys(a)| == |b|;
    forall i | 0 <= i < |a| ensures a[i] == b[i] {
      assert a[i].key == Keys(a)[i] == b[i].key;
      assert UniqueKeys(b) by {
        forall x, y | 0 <= x < y < |b| ensures b[x].key != b[y].key {
          assert b[x].key == Keys(a)[x] && b[y].key == Keys(a)[y];
        }
      }
      IndexOfUnique(a, i);
      IndexOfUnique(b, i);
    }
  }
}
