/** Ordered permission rules, the wildcard matcher they are judged by, and the walk that decides a call. */
module Permissions {
  import opened Optional
  import opened JsonTree

  datatype Action = Allow | Ask | Deny | Other(word: string)

  datatype Rule = Rule(permission: string, pattern: string, action: Action)

  const ANY := "*"

  /** What a wildcard pattern covers: `*` any run of characters, `?` exactly one, the rest literally. */
  predicate Covers(pattern: string, text: string)
    decreases |pattern| + |text|
  {
    if pattern == [] then text == []
    else if pattern[0] == '*' then
      Covers(pattern[1..], text) || (text != [] && Covers(pattern, text[1..]))
    else
      text != [] && (pattern[0] == '?' || pattern[0] == text[0]) && Covers(pattern[1..], text[1..])
  }

  /** `segment` has no star and stands character by character for the start of `text`. */
  predicate Fits(segment: string, text: string) {
    |segment| <= |text|
    && forall i :: 0 <= i < |segment| ==> segment[i] != '*' && (segment[i] == '?' || segment[i] == text[i])
  }

  /** The characters a pattern cannot do without. */
  function Needs(pattern: string): nat {
    if pattern == [] then 0 else (if pattern[0] == '*' then 0 else 1) + Needs(pattern[1..])
  }

  lemma {:induction false} CoversNeeds(pattern: string, text: string)
    requires Covers(pattern, text)
    ensures Needs(pattern) <= |text|
    decreases |pattern| + |text|
  {
    if pattern != [] {
      if pattern[0] == '*' && !Covers(pattern[1..], text) {
        CoversNeeds(pattern, text[1..]);
      } else if pattern[0] == '*' {
        CoversNeeds(pattern[1..], text);
      } else {
        CoversNeeds(pattern[1..], text[1..]);
      }
    }
  }

  lemma {:induction false} NeedsNothing(pattern: string)
    ensures Needs(pattern) == 0 <==> forall i :: 0 <= i < |pattern| ==> pattern[i] == '*'
    ensures Covers(pattern, []) <==> Needs(pattern) == 0
  {
    if pattern != [] {
      NeedsNothing(pattern[1..]);
      assert forall i :: 0 < i < |pattern| ==> pattern[i] == pattern[1..][i - 1];
    }
  }

  /** A segment that fits is matched off the front. */
  lemma {:induction false} PeelFit(segment: string, rest: string, text: string)
    requires Fits(segment, text)
    ensures Covers(segment + rest, text) <==> Covers(rest, text[|segment|..])
    ensures Needs(segment + rest) == |segment| + Needs(rest)
  {
    if segment == [] {
      assert segment + rest == rest && text[0..] == text;
    } else {
      assert (segment + rest)[1..] == segment[1..] + rest;
      PeelFit(segment[1..], rest, text[1..]);
      assert text[1..][|segment| - 1..] == text[|segment|..];
    }
  }

  /** A leading star takes in whatever stands before. */
  lemma {:induction false} StarAbsorbs(pattern: string, text: string, n: nat)
    requires pattern != [] && pattern[0] == '*' && n <= |text| && Covers(pattern, text[n..])
    ensures Covers(pattern, text)
    decreases n
  {
    if n > 0 {
      assert text[1..][n - 1..] == text[n..];
      StarAbsorbs(pattern, text[1..], n - 1);
    } else {
      assert text[0..] == text;
    }
  }

  /** Taking a segment between two stars at the earliest place it fits loses no match. */
  lemma {:induction false} EarliestFit(segment: string, rest: string, text: string)
    requires rest != [] && rest[0] == '*'
    requires forall i :: 0 <= i < |segment| ==> segment[i] != '*'
    requires Covers(['*'] + segment + rest, text)
    ensures |segment| <= |text| && Covers(rest, text[|segment|..])
    decreases |text|
  {
    var whole := ['*'] + segment + rest;
    assert whole[1..] == segment + rest;
    if Covers(segment + rest, text) {
      FitsWhenCovered(segment, rest, text);
      PeelFit(segment, rest, text);
    } else {
      EarliestFit(segment, rest, text[1..]);
      assert text[1..][|segment|..] == text[|segment| + 1..] == text[|segment|..][1..];
      StarAbsorbs(rest, text[|segment|..], 1);
    }
  }

  lemma {:induction false} FitsWhenCovered(segment: string, rest: string, text: string)
    requires forall i :: 0 <= i < |segment| ==> segment[i] != '*'
    requires Covers(segment + rest, text)
    ensures Fits(segment, text)
    decreases |segment|
  {
    if segment != [] {
      assert (segment + rest)[1..] == segment[1..] + rest;
      FitsWhenCovered(segment[1..], rest, text[1..]);
      forall i | 0 <= i < |segment| ensures segment[i] == '?' || segment[i] == text[i] {
        if i > 0 {
          assert segment[i] == segment[1..][i - 1] && text[i] == text[1..][i - 1];
        }
      }
    }
  }

  lemma StarStep(pattern: string, text: string)
    requires pattern != [] && pattern[0] == '*'
    ensures Covers(pattern, text) <==> Covers(pattern[1..], text) || (text != [] && Covers(pattern, text[1..]))
  {}

  /**
   * `glob`, as it runs: on a mismatch it goes back to the last star alone and gives it one character
   * more. That decides exactly what the recursive reading of the pattern decides.
   */
  method Glob(text: string, pattern: string) returns (matched: bool)
    ensures matched <==> Covers(pattern, text)
  {
    var at: nat, against: nat := 0, 0;
    var star: Option<nat> := None;
    var resume: nat := 0;
    while at < |text|
      invariant at <= |text| && against <= |pattern|
      invariant star.None? ==> resume == 0 && (Covers(pattern, text) <==> Covers(pattern[against..], text[at..]))
      invariant star.Some? ==>
        && star.value < against && pattern[star.value] == '*' && resume <= at
        && at - resume == against - star.value - 1
        && Fits(pattern[star.value + 1..against], text[resume..])
        && (Covers(pattern, text) <==> Covers(pattern[star.value..], text[resume..]))
      decreases |pattern| - (if star.Some? then star.value else -1), |text| - resume, |text| - at
    {
      if against < |pattern| && pattern[against] == '*' {
        if star.Some? {
          NextStar(pattern, text, star.value, against, resume, at);
        }
        star := Some(against);
        against := against + 1;
        resume := at;
      } else if against < |pattern| && (pattern[against] == '?' || pattern[against] == text[at]) {
        if star.Some? {
          Extend(pattern[star.value + 1..against], pattern[against], text[resume..]);
          assert pattern[star.value + 1..against] + [pattern[against]] == pattern[star.value + 1..against + 1];
        } else {
          assert pattern[against..][1..] == pattern[against + 1..] && text[at..][1..] == text[at + 1..];
        }
        at := at + 1;
        against := against + 1;
      } else {
        assert !Covers(pattern[against..], text[at..]);
        if star.None? {
          return false;
        }
        Backtrack(pattern, text, star.value, against, resume, at);
        against := star.value + 1;
        resume := resume + 1;
        at := resume;
      }
    }
    matched := forall i :: against <= i < |pattern| ==> pattern[i] == '*';
    var tail := pattern[against..];
    assert text[at..] == [];
    NeedsNothing(tail);
    assert matched <==> forall i :: 0 <= i < |tail| ==> tail[i] == '*';
    if star.Some? {
      AtTheEnd(pattern, text, star.value, against, resume);
    }
  }

  lemma Extend(segment: string, c: char, text: string)
    requires Fits(segment, text) && |segment| < |text| && c != '*' && (c == '?' || c == text[|segment|])
    ensures Fits(segment + [c], text)
  {}

  lemma NextStar(pattern: string, text: string, star: nat, against: nat, resume: nat, at: nat)
    requires star < against < |pattern| && pattern[star] == '*' && pattern[against] == '*' && resume <= at <= |text|
    requires at - resume == against - star - 1 && Fits(pattern[star + 1..against], text[resume..])
    ensures Covers(pattern[star..], text[resume..]) <==> Covers(pattern[against..], text[at..])
  {
    var segment, rest, here := pattern[star + 1..against], pattern[against..], text[resume..];
    assert pattern[star..] == ['*'] + segment + rest;
    assert pattern[star..][1..] == segment + rest;
    assert here[|segment|..] == text[at..];
    if Covers(pattern[star..], here) {
      EarliestFit(segment, rest, here);
    }
    PeelFit(segment, rest, here);
    StarStep(pattern[star..], here);
  }

  lemma Backtrack(pattern: string, text: string, star: nat, against: nat, resume: nat, at: nat)
    requires star < against <= |pattern| && pattern[star] == '*' && resume <= at < |text|
    requires at - resume == against - star - 1 && Fits(pattern[star + 1..against], text[resume..])
    requires !Covers(pattern[against..], text[at..])
    ensures Covers(pattern[star..], text[resume..]) <==> Covers(pattern[star..], text[resume + 1..])
    ensures Fits(pattern[star + 1..star + 1], text[resume + 1..])
  {
    var segment, rest, here := pattern[star + 1..against], pattern[against..], text[resume..];
    assert pattern[star..][1..] == segment + rest;
    assert here[|segment|..] == text[at..] && here[1..] == text[resume + 1..];
    PeelFit(segment, rest, here);
    StarStep(pattern[star..], here);
  }

  lemma AtTheEnd(pattern: string, text: string, star: nat, against: nat, resume: nat)
    requires star < against <= |pattern| && pattern[star] == '*' && resume <= |text|
    requires |text| - resume == against - star - 1 && Fits(pattern[star + 1..against], text[resume..])
    ensures Covers(pattern[star..], text[resume..]) <==> Covers(pattern[against..], [])
  {
    var segment, rest, here := pattern[star + 1..against], pattern[against..], text[resume..];
    assert pattern[star..][1..] == segment + rest;
    assert here[|segment|..] == [];
    PeelFit(segment, rest, here);
    StarStep(pattern[star..], here);
    NeedsNothing(rest);
    if Covers(pattern[star..], here) {
      CoversNeeds(pattern[star..], here);
    }
  }

  /** One kind of separator. */
  function Normalize(text: string): (r: string)
    ensures |r| == |text|
  {
    seq(|text|, i requires 0 <= i < |text| => if text[i] == '\\' then '/' else text[i])
  }

  /** Whether `text` is covered by `pattern`; a trailing " *" may be left out. */
  predicate Matches(text: string, pattern: string) {
    var t, p := Normalize(text), Normalize(pattern);
    Covers(p, t) || (|p| >= 2 && p[|p| - 2..] == " *" && Covers(p[..|p| - 2], t))
  }

  method MatchesText(text: string, pattern: string) returns (matched: bool)
    ensures matched <==> Matches(text, pattern)
  {
    var t, p := Normalize(text), Normalize(pattern);
    matched := Glob(t, p);
    if !matched && |p| >= 2 && p[|p| - 2..] == " *" {
      matched := Glob(t, p[..|p| - 2]);
    }
  }

  /** No character of `text` is a metacharacter. */
  predicate Literal(text: string) {
    forall i :: 0 <= i < |text| ==> text[i] != '*' && text[i] != '?'
  }

  /** A tool's name as a rule names it: no metacharacter, and no separator to be taken for another. */
  predicate Plain(name: string) {
    Literal(name) && Normalize(name) == name
  }

  lemma {:induction false} StarCoversAll(text: string)
    ensures Covers(ANY, text)
  {
    if text == [] {
      assert ANY[1..] == [];
    } else {
      StarCoversAll(text[1..]);
    }
  }

  lemma {:induction false} LiteralCovers(pattern: string, text: string)
    requires Literal(pattern)
    ensures Covers(pattern, text) <==> pattern == text
  {
    if pattern != [] && text != [] {
      LiteralCovers(pattern[1..], text[1..]);
      assert pattern == [pattern[0]] + pattern[1..] && text == [text[0]] + text[1..];
    }
  }

  lemma {:induction false} PrefixCovers(prefix: string, text: string)
    requires Literal(prefix)
    ensures Covers(prefix + ANY, text) <==> prefix <= text
    decreases |prefix|
  {
    if prefix == [] {
      assert prefix + ANY == ANY;
      StarCoversAll(text);
    } else {
      assert (prefix + ANY)[1..] == prefix[1..] + ANY;
      if text != [] {
        PrefixCovers(prefix[1..], text[1..]);
        assert prefix == [prefix[0]] + prefix[1..] && text == [text[0]] + text[1..];
      }
    }
  }

  lemma AnyMatches(text: string)
    ensures Matches(text, ANY)
  {
    assert Normalize(ANY) == ANY;
    StarCoversAll(Normalize(text));
  }

  /** A literal name matches itself alone, up to the kind of separator. */
  lemma LiteralMatches(text: string, pattern: string)
    requires Literal(pattern)
    ensures Matches(text, pattern) <==> Normalize(text) == Normalize(pattern)
  {
    var p := Normalize(pattern);
    LiteralCovers(p, Normalize(text));
    assert |p| >= 2 ==> p[|p| - 2..][1] == p[|p| - 1] != '*';
  }

  /** A trailing star matches by prefix. */
  lemma PrefixMatches(text: string, prefix: string)
    requires Literal(prefix) && prefix != [] && prefix[|prefix| - 1] != ' '
    ensures Matches(text, prefix + ANY) <==> Normalize(prefix) <= Normalize(text)
  {
    var p := Normalize(prefix + ANY);
    assert p == Normalize(prefix) + ANY;
    PrefixCovers(Normalize(prefix), Normalize(text));
    assert p[|p| - 2..][0] == Normalize(prefix)[|prefix| - 1] != ' ';
  }

  predicate Answers(rule: Rule, permission: string, pattern: string) {
    Matches(permission, rule.permission) && Matches(pattern, rule.pattern)
  }

  /** The action of the last rule that covers the call, or nothing when none does. */
  function Decide(rules: seq<Rule>, permission: string, pattern: string): Option<Action> {
    if rules == [] then None
    else
      var last := rules[|rules| - 1];
      if Answers(last, permission, pattern) then Some(last.action)
      else Decide(rules[..|rules| - 1], permission, pattern)
  }

  /** Later rules decide; earlier ones are reached only when no later one covers the call. */
  lemma {:induction false} DecideAppend(below: seq<Rule>, above: seq<Rule>, permission: string, pattern: string)
    ensures Decide(below + above, permission, pattern)
            == if Decide(above, permission, pattern).Some? then Decide(above, permission, pattern)
               else Decide(below, permission, pattern)
    decreases above
  {
    var all := below + above;
    if above == [] {
      assert all == below;
    } else {
      assert all[|all| - 1] == above[|above| - 1];
      assert all[..|all| - 1] == below + above[..|above| - 1];
      DecideAppend(below, above[..|above| - 1], permission, pattern);
    }
  }

  lemma {:induction false} DecideNone(rules: seq<Rule>, permission: string, pattern: string)
    ensures Decide(rules, permission, pattern).None?
            <==> forall i :: 0 <= i < |rules| ==> !Answers(rules[i], permission, pattern)
  {
    if rules != [] {
      DecideNone(rules[..|rules| - 1], permission, pattern);
    }
  }

  lemma {:induction false} DecideAll(rules: seq<Rule>, permission: string, pattern: string, action: Action)
    requires forall i :: 0 <= i < |rules| && Answers(rules[i], permission, pattern) ==> rules[i].action == action
    requires exists i :: 0 <= i < |rules| && Answers(rules[i], permission, pattern)
    ensures Decide(rules, permission, pattern) == Some(action)
  {
    DecideNone(rules, permission, pattern);
    var last := |rules| - 1;
    if !Answers(rules[last], permission, pattern) {
      var i :| 0 <= i < |rules| && Answers(rules[i], permission, pattern);
      assert rules[..last][i] == rules[i];
      DecideAll(rules[..last], permission, pattern, action);
    }
  }

  function ActionOf(word: string): Action {
    if word == "allow" then Allow
    else if word == "ask" then Ask
    else if word == "deny" then Deny
    else Other(word)
  }

  lemma ActionWords()
    ensures ActionOf("allow") == Allow && ActionOf("ask") == Ask && ActionOf("deny") == Deny
  {
    assert |"allow"| == 5 && |"ask"| == 3 && |"deny"| == 4;
  }

  /** The rules a `permission` value asks for, flattened and in order; nothing for a value it cannot be. */
  function RulesOf(json: Json): Option<seq<Rule>> {
    match json
    case Str(word) => Some([Rule(ANY, ANY, ActionOf(word))])
    case Object(entries) => RulesOfEntries(entries)
    case _ => None
  }

  function RulesOfEntries(entries: seq<Entry>): Option<seq<Rule>> {
    if entries == [] then Some([])
    else
      var first, rest := RulesOfTool(entries[0].key, entries[0].value), RulesOfEntries(entries[1..]);
      if first.None? || rest.None? then None else Some(first.value + rest.value)
  }

  function RulesOfTool(tool: string, json: Json): Option<seq<Rule>> {
    match json
    case Str(word) => Some([Rule(tool, ANY, ActionOf(word))])
    case Object(patterns) => RulesOfPatterns(tool, patterns)
    case _ => None
  }

  function RulesOfPatterns(tool: string, patterns: seq<Entry>): Option<seq<Rule>> {
    if patterns == [] then Some([])
    else
      var rest := RulesOfPatterns(tool, patterns[1..]);
      if !patterns[0].value.Str? || rest.None? then None
      else Some([Rule(tool, patterns[0].key, ActionOf(patterns[0].value.text))] + rest.value)
  }

  /**
   * Of a tool's patterns the last to cover the call decides it, by the word spelled for it; and none decides no
   * call.
   */
  lemma {:induction false} LastPatternDecides(tool: string, patterns: seq<Entry>, permission: string, pattern: string)
    requires Matches(permission, tool) && forall i :: 0 <= i < |patterns| ==> patterns[i].value.Str?
    ensures RulesOfTool(tool, Object(patterns)).Some?
    ensures var decided := Decide(RulesOfTool(tool, Object(patterns)).value, permission, pattern);
            && (decided.None? <==> forall i :: 0 <= i < |patterns| ==> !Matches(pattern, patterns[i].key))
            && forall last: nat ::
                 last < |patterns| && Matches(pattern, patterns[last].key)
                 && (forall i :: last < i < |patterns| ==> !Matches(pattern, patterns[i].key)) ==>
                 decided == Some(ActionOf(patterns[last].value.text))
  {
    if patterns != [] {
      var first, rest := patterns[0], patterns[1..];
      var own := [Rule(tool, first.key, ActionOf(first.value.text))];
      LastPatternDecides(tool, rest, permission, pattern);
      DecideAppend(own, RulesOfTool(tool, Object(rest)).value, permission, pattern);
      assert own[|own| - 1] == own[0] && own[..0] == [];
      assert patterns == [first] + rest;
    }
  }
}
