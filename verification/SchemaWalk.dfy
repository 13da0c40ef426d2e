/** The walk that finds the first object a JSON Schema leaves open, and the path it is named by. */
module SchemaWalk {
  import opened Optional
  import opened JsonTree

  /** Keywords whose value is a map of subschemas by name. */
  const BY_NAME := ["properties", "patternProperties", "$defs", "definitions", "dependentSchemas"]

  /** Keywords whose value is a list of subschemas. */
  const BY_LIST := ["anyOf", "allOf", "oneOf", "prefixItems"]

  const ITEMS := "items"

  /** Keywords whose value is one subschema. */
  const BY_ITSELF := [
    ITEMS, "additionalItems", "additionalProperties", "unevaluatedItems", "unevaluatedProperties", "contains",
    "propertyNames", "not", "if", "then", "else"]

  datatype Holds = ByName(entries: seq<Entry>) | ByList(elements: seq<Json>) | ByItself | Data

  /** What a keyword's value holds, as far as subschemas go. */
  function Held(keyword: string, value: Json): Holds {
    if keyword in BY_NAME then if value.Object? then ByName(value.entries) else Data
    else if keyword in BY_LIST then if value.Array? then ByList(value.elements) else Data
    else if keyword == ITEMS && value.Array? then ByList(value.elements)
    else if keyword in BY_ITSELF then ByItself
    else Data
  }

  predicate TypedObject(node: Json) {
    match Get(node, "type")
    case Some(Str(kind)) => kind == "object"
    case Some(Array(kinds)) => Str("object") in kinds
    case _ => false
  }

  /** An object node that does not close itself. */
  predicate Open(node: Json) {
    node.Object? && (TypedObject(node) || Has(node.entries, "properties"))
    && Get(node, "additionalProperties") != Some(Bool(false))
  }

  /** The first open object at or under `node`, in document order. */
  function OpenObject(node: Json, path: Path): Option<Path>
    decreases node, 2
  {
    if !node.Object? then None
    else if Open(node) then Some(path)
    else OpenMember(node.entries, path)
  }

  function OpenMember(members: seq<Entry>, path: Path): Option<Path>
    decreases members, 1
  {
    if members == [] then None
    else
      var here := path + [Key(members[0].key)];
      var found := match Held(members[0].key, members[0].value)
        case ByName(named) => OpenNamed(members[0].value.entries, here)
        case ByList(listed) => OpenListed(members[0].value.elements, here, 0)
        case ByItself => OpenObject(members[0].value, here)
        case Data => None;
      if found.Some? then found else OpenMember(members[1..], path)
  }

  function OpenNamed(named: seq<Entry>, path: Path): Option<Path>
    decreases named, 1
  {
    if named == [] then None
    else
      var found := OpenObject(named[0].value, path + [Key(named[0].key)]);
      if found.Some? then found else OpenNamed(named[1..], path)
  }

  function OpenListed(listed: seq<Json>, path: Path, index: nat): Option<Path>
    decreases listed, 1
  {
    if listed == [] then None
    else
      var found := OpenObject(listed[0], path + [Index(index)]);
      if found.Some? then found else OpenListed(listed[1..], path, index + 1)
  }

  // The nodes of a schema.

  /** Whether `path` leads from `node` to a subschema, through nothing but keywords that hold subschemas. */
  predicate Reaches(node: Json, path: Path)
    decreases |path|
  {
    path == [] ||
    (path[0].Key? && Get(node, path[0].key).Some? &&
     var value := Get(node, path[0].key).value;
     match Held(path[0].key, value)
     case ByName(named) =>
       |path| >= 2 && path[1].Key? && Find(named, path[1].key).Some?
         && Reaches(Find(named, path[1].key).value, path[2..])
     case ByList(listed) =>
       |path| >= 2 && path[1].Index? && path[1].index < |listed| && Reaches(listed[path[1].index], path[2..])
     case ByItself => Reaches(value, path[1..])
     case Data => false)
  }

  lemma {:induction false} ReachedIsThere(node: Json, path: Path)
    requires Reaches(node, path)
    ensures At(node, path).Some?
    decreases |path|
  {
    if path != [] {
      var value := Get(node, path[0].key).value;
      match Held(path[0].key, value)
      case ByName(named) =>
        ReachedIsThere(Find(named, path[1].key).value, path[2..]);
        assert path[1..][0] == path[1] && path[1..][1..] == path[2..];
      case ByList(listed) =>
        ReachedIsThere(listed[path[1].index], path[2..]);
        assert path[1..][0] == path[1] && path[1..][1..] == path[2..];
      case ByItself => ReachedIsThere(value, path[1..]);
      case Data =>
    }
  }

  predicate OpenThere(node: Json, path: Path) {
    Reaches(node, path) && At(node, path).Some? && Open(At(node, path).value)
  }

  /** Earlier in the walk: an ancestor, or, where the two part, the branch the document spells first. */
  predicate Earlier(node: Json, a: Path, b: Path)
    decreases |a|
  {
    if a == [] then b != []
    else if b == [] then false
    else if a[0] == b[0] then
      match At(node, a[..1])
      case None => false
      case Some(child) => Earlier(child, a[1..], b[1..])
    else if a[0].Index? && b[0].Index? then a[0].index < b[0].index
    else if a[0].Key? && b[0].Key? && node.Object?
      then IndexOf(node.entries, a[0].key) < IndexOf(node.entries, b[0].key)
    else false
  }

  /** `path` is where the first open object under `node` is, relative to it. */
  ghost predicate FirstOpen(node: Json, path: Path) {
    OpenThere(node, path) && forall earlier :: Earlier(node, earlier, path) ==> !OpenThere(node, earlier)
  }

  /** Whether `q` leads on from a keyword's value to an open object. */
  predicate Within(keyword: string, value: Json, q: Path) {
    ThereIn(Held(keyword, value), value, q)
  }

  predicate ThereIn(holds: Holds, value: Json, q: Path) {
    match holds
    case ByName(named) => NamedThere(named, q)
    case ByList(listed) => ListedThere(listed, q)
    case ByItself => OpenThere(value, q)
    case Data => false
  }

  predicate NamedThere(named: seq<Entry>, q: Path) {
    q != [] && q[0].Key? && Find(named, q[0].key).Some? && OpenThere(Find(named, q[0].key).value, q[1..])
  }

  predicate ListedThere(listed: seq<Json>, q: Path) {
    q != [] && q[0].Index? && q[0].index < |listed| && OpenThere(listed[q[0].index], q[1..])
  }

  lemma OpenThroughKeyword(node: Json, path: Path)
    requires path != []
    ensures OpenThere(node, path)
            <==> path[0].Key? && Get(node, path[0].key).Some?
                 && Within(path[0].key, Get(node, path[0].key).value, path[1..])
  {
    if path[0].Key? && Get(node, path[0].key).Some? {
      var value, rest := Get(node, path[0].key).value, path[1..];
      assert At(node, path) == At(value, rest);
      if rest != [] {
        assert rest[0] == path[1] && rest[1..] == path[2..];
        match Held(path[0].key, value)
        case ByName(named) =>
          assert path[1].Key? && Find(named, path[1].key).Some? ==>
              At(value, rest) == At(Find(named, path[1].key).value, path[2..]);
        case ByList(listed) =>
          assert path[1].Index? && path[1].index < |listed| ==> At(value, rest) == At(listed[path[1].index], path[2..]);
        case _ =>
      }
    }
  }

  /**
   * The result `found` of a search below `here`: the first of the paths that `there` holds of, or nothing when
   * it holds of none.
   */
  ghost predicate IsFirst(found: Option<Path>, here: Path, value: Json, there: Path -> bool) {
    match found
    case None => forall q :: !there(q)
    case Some(path) =>
      && |here| <= |path| && path[..|here|] == here && there(path[|here|..])
      && forall q :: Earlier(value, q, path[|here|..]) ==> !there(q)
  }

  lemma SameFirst(found: Option<Path>, here: Path, value: Json, a: Path -> bool, b: Path -> bool)
    requires IsFirst(found, here, value, a) && forall q :: a(q) <==> b(q)
    ensures IsFirst(found, here, value, b)
  {}

  lemma {:induction false} WalkIsFirst(node: Json, path: Path)
    requires WellFormed(node)
    ensures IsFirst(OpenObject(node, path), path, node, q => OpenThere(node, q))
    decreases node, 2
  {
    if !node.Object? {
      forall q: Path ensures !OpenThere(node, q) {}
    } else if Open(node) {
      assert path[|path|..] == [] && At(node, []) == Some(node);
    } else {
      assert node.entries[0..] == node.entries;
      MembersAreFirst(node, 0, path);
      assert At(node, []) == Some(node) && !OpenThere(node, []);
      forall q: Path ensures ThereFrom(node, 0, q) <==> OpenThere(node, q) {
        if q != [] {
          OpenThroughKeyword(node, q);
        }
      }
      SameFirst(OpenObject(node, path), path, node, q => ThereFrom(node, 0, q), q => OpenThere(node, q));
    }
  }

  /** Open objects reached through the members from the `n`th on. */
  predicate ThereFrom(node: Json, n: nat, q: Path)
    requires node.Object?
  {
    q != [] && OpenThere(node, q) && q[0].Key? && IndexOf(node.entries, q[0].key) >= n
  }

  lemma ThereFromNext(node: Json, n: nat, q: Path)
    requires node.Object? && n < |node.entries| && IndexOf(node.entries, node.entries[n].key) == n
    ensures var member := node.entries[n];
            ThereFrom(node, n, q)
            <==> ThereFrom(node, n + 1, q)
                 || (q != [] && q[0] == Key(member.key) && Within(member.key, member.value, q[1..]))
  {
    if q != [] {
      OpenThroughKeyword(node, q);
      if q[0].Key? && IndexOf(node.entries, q[0].key) == n {
        assert q[0] == Key(node.entries[n].key);
      }
    }
  }

  lemma FirstOfMembers(node: Json, n: nat, path: Path, holds: Holds, found: Option<Path>, later: Option<Path>)
    requires node.Object? && WellFormed(node) && n < |node.entries|
             && holds == Held(node.entries[n].key, node.entries[n].value)
    requires IsFirst(found, path + [Key(node.entries[n].key)], node.entries[n].value,
                     q => ThereIn(holds, node.entries[n].value, q))
    requires IsFirst(later, path, node, q => ThereFrom(node, n + 1, q))
    ensures IsFirst(if found.Some? then found else later, path, node, q => ThereFrom(node, n, q))
  {
    var member := node.entries[n];
    var step := Key(member.key);
    IndexOfUnique(node.entries, n);
    assert [step][1..] == [] && At(node, [step]) == Some(member.value);
    forall q: Path ensures ThereFrom(node, n, q)
        <==> ThereFrom(node, n + 1, q) || (q != [] && q[0] == step && ThereIn(holds, member.value, q[1..])) {
      ThereFromNext(node, n, q);
    }
    FirstOfSteps(node, step, member.value, path, found, later,
                 q => ThereIn(holds, member.value, q), q => ThereFrom(node, n + 1, q), q => ThereFrom(node, n, q));
  }

  lemma {:induction false} MembersAreFirst(node: Json, n: nat, path: Path)
    requires node.Object? && WellFormed(node) && n <= |node.entries|
    ensures IsFirst(OpenMember(node.entries[n..], path), path, node, q => ThereFrom(node, n, q))
    decreases node, 1, |node.entries| - n
  {
    if n < |node.entries| {
      var member := node.entries[n];
      var here := path + [Key(member.key)];
      var holds := Held(member.key, member.value);
      assert node.entries[n..][0] == member && node.entries[n..][1..] == node.entries[n + 1..];
      assert OpenMember(node.entries[n..], path)
          == if FoundAs(holds, member.value, here).Some? then FoundAs(holds, member.value, here)
             else OpenMember(node.entries[n + 1..], path);
      MembersAreFirst(node, n + 1, path);
      HeldIsFirst(holds, member.value, here);
      FirstOfMembers(node, n, path, holds, FoundAs(holds, member.value, here), OpenMember(node.entries[n + 1..], path));
    } else {
      forall q: Path ensures !ThereFrom(node, n, q) {
        if q != [] && OpenThere(node, q) {
          OpenThroughKeyword(node, q);
        }
      }
    }
  }

  function FoundAs(holds: Holds, value: Json, here: Path): Option<Path> {
    match holds
    case ByName(named) => OpenNamed(named, here)
    case ByList(listed) => OpenListed(listed, here, 0)
    case ByItself => OpenObject(value, here)
    case Data => None
  }

  lemma EarlierBelow(node: Json, step: Step, child: Json, a: Path, b: Path)
    requires At(node, [step]) == Some(child)
    ensures Earlier(node, [step] + a, [step] + b) <==> Earlier(child, a, b)
  {
    var x, y := [step] + a, [step] + b;
    assert x[1..] == a && y[1..] == b && x[..1] == [step];
  }

  lemma EarlierBeside(node: Json, q: Path, step: Step, inner: Path)
    requires q != [] && q[0] != step && Earlier(node, q, [step] + inner)
    ensures Earlier(node, q, [step])
  {}

  /** The first of what is below one step and of what is after it. */
  lemma FirstOfSteps(value: Json, step: Step, child: Json, here: Path, found: Option<Path>, later: Option<Path>,
                     below: Path -> bool, after: Path -> bool, all: Path -> bool)
    requires At(value, [step]) == Some(child)
    requires forall q: Path :: all(q) <==> after(q) || (q != [] && q[0] == step && below(q[1..]))
    requires forall q: Path :: after(q) ==> q != [] && !Earlier(value, q, [step]) && q[0] != step
    requires IsFirst(found, here + [step], child, below) && IsFirst(later, here, value, after)
    ensures IsFirst(if found.Some? then found else later, here, value, all)
  {
    if found.Some? {
      var result := found.value;
      var inner, outer := result[|here + [step]|..], result[|here|..];
      assert result == here + [step] + inner && outer == [step] + inner && outer[1..] == inner;
      assert result[..|here|] == here;
      forall q: Path | Earlier(value, q, outer) ensures !all(q) {
        if q != [] && q[0] == step {
          assert q == [step] + q[1..];
          EarlierBelow(value, step, child, q[1..], inner);
        } else if q != [] {
          EarlierBeside(value, q, step, inner);
        }
      }
    }
  }

  lemma {:induction false} HeldIsFirst(holds: Holds, value: Json, here: Path)
    requires WellFormed(value)
    requires holds.ByName? ==> value == Object(holds.entries)
    requires holds.ByList? ==> value == Array(holds.elements)
    ensures IsFirst(FoundAs(holds, value, here), here, value, q => ThereIn(holds, value, q))
    decreases value, 3
  {
    match holds
    case ByName(named) =>
      assert named[0..] == named;
      NamedAreFirst(value, 0, here);
      SameFirst(OpenNamed(named, here), here, value, q => NamedFrom(named, 0, q), q => ThereIn(holds, value, q));
    case ByList(listed) =>
      assert listed[0..] == listed;
      ListedAreFirst(value, 0, here);
      SameFirst(OpenListed(listed, here, 0), here, value, q => ListedFrom(listed, 0, q), q => ThereIn(holds, value, q));
    case ByItself =>
      WalkIsFirst(value, here);
      SameFirst(OpenObject(value, here), here, value, q => OpenThere(value, q), q => ThereIn(holds, value, q));
    case Data =>
  }

  predicate NamedFrom(named: seq<Entry>, n: nat, q: Path) {
    NamedThere(named, q) && IndexOf(named, q[0].key) >= n
  }

  predicate ListedFrom(listed: seq<Json>, n: nat, q: Path) {
    ListedThere(listed, q) && q[0].index >= n
  }

  lemma {:induction false} NamedAreFirst(value: Json, n: nat, here: Path)
    requires value.Object? && WellFormed(value) && n <= |value.entries|
    ensures IsFirst(OpenNamed(value.entries[n..], here), here, value, q => NamedFrom(value.entries, n, q))
    decreases value, 1, |value.entries| - n
  {
    var named := value.entries;
    if n < |named| {
      var child := named[n].value;
      assert named[n..][0] == named[n] && named[n..][1..] == named[n + 1..];
      NamedAreFirst(value, n + 1, here);
      WalkIsFirst(child, here + [Key(named[n].key)]);
      IndexOfUnique(named, n);
      var found, later := OpenObject(child, here + [Key(named[n].key)]), OpenNamed(named[n + 1..], here);
      var step := Key(named[n].key);
      assert [step][1..] == [] && At(value, [step]) == Some(child);
      forall q: Path ensures NamedFrom(named, n, q)
          <==> NamedFrom(named, n + 1, q) || (q != [] && q[0] == step && OpenThere(child, q[1..])) {
        if q != [] && q[0].Key? && IndexOf(named, q[0].key) == n {
          assert q[0] == step;
        }
      }
      FirstOfSteps(value, step, child, here, found, later, q => OpenThere(child, q), q => NamedFrom(named, n + 1, q),
                   q => NamedFrom(named, n, q));
    }
  }

  lemma {:induction false} ListedAreFirst(value: Json, n: nat, here: Path)
    requires value.Array? && WellFormed(value) && n <= |value.elements|
    ensures IsFirst(OpenListed(value.elements[n..], here, n), here, value, q => ListedFrom(value.elements, n, q))
    decreases value, 1, |value.elements| - n
  {
    var listed := value.elements;
    if n < |listed| {
      var child := listed[n];
      assert listed[n..][0] == child && listed[n..][1..] == listed[n + 1..];
      ListedAreFirst(value, n + 1, here);
      WalkIsFirst(child, here + [Index(n)]);
      var found, later := OpenObject(child, here + [Index(n)]), OpenListed(listed[n + 1..], here, n + 1);
      var step := Index(n);
      assert [step][1..] == [] && At(value, [step]) == Some(child);
      forall q: Path ensures ListedFrom(listed, n, q)
          <==> ListedFrom(listed, n + 1, q) || (q != [] && q[0] == step && OpenThere(child, q[1..])) {}
      FirstOfSteps(value, step, child, here, found, later, q => OpenThere(child, q), q => ListedFrom(listed, n + 1, q),
                   q => ListedFrom(listed, n, q));
    }
  }

  /**
   * The walk finds nothing exactly when every object a subschema keyword leads to closes itself; what it
   * finds is reached, is open, and comes before every other open one in document order.
   */
  lemma WalkFindsFirstOpen(schema: Json)
    requires WellFormed(schema)
    ensures OpenObject(schema, []).None? <==> forall path :: !OpenThere(schema, path)
    ensures OpenObject(schema, []).Some? ==> FirstOpen(schema, OpenObject(schema, []).value)
  {
    WalkIsFirst(schema, []);
    var found := OpenObject(schema, []);
    if found.Some? {
      assert found.value[0..] == found.value;
      assert OpenThere(schema, found.value);
    } else {
      var there := (q: Path) => OpenThere(schema, q);
      SameFirst(found, [], schema, q => OpenThere(schema, q), there);
      forall path ensures !OpenThere(schema, path) {
        assert !there(path);
      }
    }
  }

  // The same, told by the keywords.

  /** The node describes objects, by its type or by naming properties, and takes properties it does not name. */
  predicate LeavesOpen(node: Json) {
    var kind := Get(node, "type");
    && Get(node, "additionalProperties") != Some(Bool(false))
    && (|| kind == Some(Str("object")) || (kind.Some? && kind.value.Array? && Str("object") in kind.value.elements)
        || Get(node, "properties").Some?)
  }

  /** The path leads from a node straight to a subschema: under a name, in a list, or as a keyword's own value. */
  predicate IsStep(node: Json, path: Path) {
    && At(node, path).Some? && path != [] && path[0].Key?
    && var keyword := path[0].key;
       || (|path| == 2 && path[1].Key?
           && keyword in ["properties", "patternProperties", "$defs", "definitions", "dependentSchemas"])
       || (|path| == 2 && path[1].Index? && keyword in ["anyOf", "allOf", "oneOf", "prefixItems", "items"])
       || (|path| == 1
           && keyword in ["additionalItems", "additionalProperties", "unevaluatedItems", "unevaluatedProperties",
                          "contains", "propertyNames", "not", "if", "then", "else"])
       || (|path| == 1 && keyword == "items" && !At(node, path).value.Array?)
  }

  /** The path leads to a subschema, step by step. */
  predicate IsSubschema(node: Json, path: Path)
    decreases |path|
  {
    || path == []
    || (IsStep(node, path[..1]) && IsSubschema(At(node, path[..1]).value, path[1..]))
    || (|path| >= 2 && IsStep(node, path[..2]) && IsSubschema(At(node, path[..2]).value, path[2..]))
  }

  predicate LeftOpen(schema: Json, path: Path) {
    IsSubschema(schema, path) && At(schema, path).Some? && LeavesOpen(At(schema, path).value)
  }

  lemma Keywords(keyword: string)
    ensures keyword in BY_NAME
            <==> keyword in ["properties", "patternProperties", "$defs", "definitions", "dependentSchemas"]
    ensures keyword in BY_LIST || keyword == ITEMS <==> keyword in ["anyOf", "allOf", "oneOf", "prefixItems", "items"]
    ensures keyword in BY_ITSELF && keyword != ITEMS
            <==> keyword in ["additionalItems", "additionalProperties", "unevaluatedItems", "unevaluatedProperties",
                             "contains", "propertyNames", "not", "if", "then", "else"]
  {
    assert BY_NAME == ["properties", "patternProperties", "$defs", "definitions", "dependentSchemas"];
    assert BY_LIST == ["anyOf", "allOf", "oneOf", "prefixItems"];
    assert BY_ITSELF[0] == ITEMS && BY_ITSELF[1..]
        == ["additionalItems", "additionalProperties", "unevaluatedItems", "unevaluatedProperties", "contains",
            "propertyNames", "not", "if", "then", "else"];
    assert BY_ITSELF == [ITEMS] + BY_ITSELF[1..];
  }

  lemma OneStep(node: Json, step: Step)
    ensures At(node, [step])
            == if step.Key? then Get(node, step.key)
               else if node.Array? && step.index < |node.elements| then Some(node.elements[step.index]) else None
  {
    assert [step][1..] == [];
  }

  lemma TwoSteps(node: Json, path: Path)
    requires |path| == 2 && path[0].Key?
    ensures At(node, path)
            == if Get(node, path[0].key).None? then None else At(Get(node, path[0].key).value, [path[1]])
  {
    assert path[1..] == [path[1]];
  }

  /** The value a node has under the keyword a path starts with. */
  predicate Spells(node: Json, path: Path) {
    path != [] && path[0].Key? && Get(node, path[0].key).Some?
  }

  function Spelled(node: Json, path: Path): Json
    requires Spells(node, path)
  {
    Get(node, path[0].key).value
  }

  /** A keyword's value of its own is one step away. */
  lemma StepsByItself(node: Json, path: Path)
    requires Spells(node, path)
    ensures IsStep(node, path[..1]) <==> Held(path[0].key, Spelled(node, path)).ByItself?
    ensures At(node, path[..1]) == Some(Spelled(node, path))
  {
    Keywords(path[0].key);
    assert path[..1] == [path[0]];
    OneStep(node, path[0]);
  }

  /** One under a name or in a list is two. */
  lemma StepsInside(node: Json, path: Path)
    requires Spells(node, path) && |path| >= 2
    ensures var holds := Held(path[0].key, Spelled(node, path));
            && (IsStep(node, path[..2])
                <==> (holds.ByName? && path[1].Key? && Find(holds.entries, path[1].key).Some?)
                     || (holds.ByList? && path[1].Index? && path[1].index < |holds.elements|))
            && (IsStep(node, path[..2]) ==>
                At(node, path[..2])
                == if holds.ByName? then Find(holds.entries, path[1].key) else Some(holds.elements[path[1].index]))
  {
    Keywords(path[0].key);
    OneStep(Spelled(node, path), path[1]);
    TwoSteps(node, path[..2]);
  }

  lemma {:induction false} ReachesSubschemas(node: Json, path: Path)
    ensures Reaches(node, path) <==> IsSubschema(node, path)
    decreases |path|
  {
    if Spells(node, path) {
      StepsByItself(node, path);
      if IsStep(node, path[..1]) {
        ReachesSubschemas(Spelled(node, path), path[1..]);
      }
      if |path| >= 2 {
        StepsInside(node, path);
        if IsStep(node, path[..2]) {
          ReachesSubschemas(At(node, path[..2]).value, path[2..]);
        }
      }
    } else if path != [] {
      NoStep(node, path);
    }
  }

  lemma NoStep(node: Json, path: Path)
    requires path != [] && !Spells(node, path)
    ensures !IsStep(node, path[..1]) && (|path| >= 2 ==> !IsStep(node, path[..2]))
  {
    assert path[..1] == [path[0]];
    OneStep(node, path[0]);
    if |path| >= 2 && path[0].Key? {
      TwoSteps(node, path[..2]);
    }
  }

  lemma OpenIsLeftOpen(node: Json)
    ensures Open(node) <==> LeavesOpen(node)
  {
    var kind := Get(node, "type");
    assert kind.Some? && kind.value.Str? ==> kind.value == Str(kind.value.text);
  }

  /**
   * The walk finds nothing exactly when no subschema leaves its objects open; and what it finds is such a one, with
   * none before it in document order.
   */
  lemma WalkFindsWhatIsLeftOpen(schema: Json)
    requires WellFormed(schema)
    ensures OpenObject(schema, []).None? <==> forall path :: !LeftOpen(schema, path)
    ensures var found := OpenObject(schema, []);
            found.Some? ==>
              LeftOpen(schema, found.value)
              && forall earlier :: Earlier(schema, earlier, found.value) ==> !LeftOpen(schema, earlier)
  {
    WalkFindsFirstOpen(schema);
    forall path ensures OpenThere(schema, path) <==> LeftOpen(schema, path) {
      ReachesSubschemas(schema, path);
      if At(schema, path).Some? {
        OpenIsLeftOpen(At(schema, path).value);
      }
    }
  }
}
