/** `{env:...}` and `{file:...}` tokens in a string, and what a string holding one becomes. */
module Tokens {
  import opened Optional

  const ENV := "{env:"
  const FILE := "{file:"

  /** `value[open..end]`. */
  datatype Span = Span(open: nat, end: nat)

  predicate StartsAt(value: string, needle: string, i: nat) {
    i + |needle| <= |value| && value[i..i + |needle|] == needle
  }

  /** The first place at or after `start` where `needle` occurs. */
  function FindFrom(value: string, needle: string, start: nat): (found: Option<nat>)
    ensures found.Some? ==> start <= found.value <= found.value + |needle| <= |value|
    decreases |value| - start
  {
    if start + |needle| > |value| then None
    else if StartsAt(value, needle, start) then Some(start)
    else FindFrom(value, needle, start + 1)
  }

  lemma FoundFirst(value: string, needle: string, start: nat)
    ensures var found := FindFrom(value, needle, start);
      && (found.Some? ==> StartsAt(value, needle, found.value))
      && (forall i :: start <= i && (found.Some? ==> i < found.value) ==> !StartsAt(value, needle, i))
    decreases |value| - start
  {
    if start + |needle| <= |value| && !StartsAt(value, needle, start) {
      FoundFirst(value, needle, start + 1);
    }
  }

  predicate Opens(value: string, i: nat) {
    StartsAt(value, ENV, i) || StartsAt(value, FILE, i)
  }

  function AfterOpener(value: string, i: nat): nat {
    i + if StartsAt(value, ENV, i) then |ENV| else |FILE|
  }

  /** The earlier of the two openers. */
  function NextOpener(value: string, start: nat): (open: Option<nat>)
    ensures open.Some? ==> start <= open.value < |value|
  {
    var env, file := FindFrom(value, ENV, start), FindFrom(value, FILE, start);
    if env.None? then file
    else if file.None? || env.value <= file.value then env
    else file
  }

  lemma OpensFirst(value: string, start: nat)
    ensures var open := NextOpener(value, start);
      && (open.Some? ==> Opens(value, open.value))
      && (forall i :: start <= i && (open.Some? ==> i < open.value) ==> !Opens(value, i))
  {
    FoundFirst(value, ENV, start);
    FoundFirst(value, FILE, start);
  }

  /** The first opener at or after `start`, closed at the first `}` after it; nothing once an opener is unclosed. */
  function NextToken(value: string, start: nat): (token: Option<Span>)
    ensures token.Some? ==> start <= token.value.open < token.value.end <= |value|
  {
    var open := NextOpener(value, start);
    if open.None? then None
    else
      var close := FindFrom(value, "}", AfterOpener(value, open.value));
      if close.None? then None else Some(Span(open.value, close.value + 1))
  }

  function Tokens(value: string, start: nat): (found: seq<Span>)
    ensures forall i :: 0 <= i < |found| ==> found[i].open < found[i].end <= |value|
    decreases |value| - start
  {
    var token := NextToken(value, start);
    if start >= |value| || token.None? then []
    else [token.value] + Tokens(value, token.value.end)
  }

  /** A token: an opener, up to and including the first `}` after it. */
  predicate TokenAt(value: string, span: Span) {
    && Opens(value, span.open)
    && AfterOpener(value, span.open) < span.end <= |value|
    && value[span.end - 1] == '}'
    && forall i :: AfterOpener(value, span.open) <= i < span.end - 1 ==> value[i] != '}'
  }

  /**
   * The leftmost tokens from `start` on, non-overlapping: each begins at the earliest place a token
   * begins after the one before it ended, and none begins after the last. `token` says what a token is.
   */
  ghost predicate Leftmost(token: Span -> bool, start: nat, spans: seq<Span>)
    decreases spans
  {
    if spans == [] then forall t :: token(t) ==> t.open < start
    else
      && token(spans[0]) && start <= spans[0].open < spans[0].end
      && (forall t :: token(t) && start <= t.open ==> spans[0].open <= t.open)
      && Leftmost(token, spans[0].end, spans[1..])
  }

  predicate Covered(spans: seq<Span>, at: nat) {
    spans != [] && (spans[0].open <= at < spans[0].end || Covered(spans[1..], at))
  }

  /** No token is lost: each begins inside one of the leftmost. */
  lemma {:induction false} NoneLost(token: Span -> bool, start: nat, spans: seq<Span>, t: Span)
    requires Leftmost(token, start, spans) && token(t) && start <= t.open
    ensures Covered(spans, t.open)
    decreases spans
  {
    if spans != [] && spans[0].end <= t.open {
      NoneLost(token, spans[0].end, spans[1..], t);
    }
  }

  function TokenIn(value: string): Span -> bool {
    t => TokenAt(value, t)
  }

  ghost predicate OnePerStart(token: Span -> bool) {
    forall a, b :: token(a) && token(b) && a.open == b.open ==> a == b
  }

  lemma BraceAt(value: string, i: nat)
    ensures StartsAt(value, "}", i) <==> i < |value| && value[i] == '}'
  {
    if i < |value| {
      assert value[i..i + 1] == [value[i]];
    }
  }

  lemma OpenerHasNoBrace(value: string, open: nat, i: nat)
    requires Opens(value, open) && open <= i < AfterOpener(value, open) && i < |value|
    ensures value[i] != '}'
  {
    var needle := if StartsAt(value, ENV, open) then ENV else FILE;
    assert value[i] == value[open..open + |needle|][i - open] == needle[i - open];
  }

  /** The next token is one, and no token begins before it; none found means none is left. */
  lemma NextTokenIsFirst(value: string, start: nat)
    ensures NextToken(value, start).Some? ==> TokenAt(value, NextToken(value, start).value)
    ensures forall t :: TokenAt(value, t) && start <= t.open ==>
              start < |value| && NextToken(value, start).Some? && NextToken(value, start).value.open <= t.open
  {
    var open := NextOpener(value, start);
    OpensFirst(value, start);
    if open.Some? {
      var after := AfterOpener(value, open.value);
      FoundFirst(value, "}", after);
      var close := FindFrom(value, "}", after);
      forall i | after <= i && (close.Some? ==> i < close.value) && i < |value| ensures value[i] != '}' {
        BraceAt(value, i);
      }
      if close.Some? {
        BraceAt(value, close.value);
      }
      forall t | TokenAt(value, t) && start <= t.open ensures close.Some? {
        if after > t.end - 1 {
          OpenerHasNoBrace(value, open.value, t.end - 1);
        }
      }
    }
  }

  /** What is found is exactly the leftmost tokens: stopping at the first unclosed opener loses none. */
  lemma {:induction false} TokensAreLeftmost(value: string, start: nat)
    ensures Leftmost(TokenIn(value), start, Tokens(value, start))
    decreases |value| - start
  {
    NextTokenIsFirst(value, start);
    var token := NextToken(value, start);
    if start < |value| && token.Some? {
      TokensAreLeftmost(value, token.value.end);
      assert Tokens(value, start)[1..] == Tokens(value, token.value.end);
    }
  }

  /** The leftmost tokens are one list. */
  lemma {:induction false} LeftmostIsUnique(token: Span -> bool, start: nat, a: seq<Span>, b: seq<Span>)
    requires OnePerStart(token) && Leftmost(token, start, a) && Leftmost(token, start, b)
    ensures a == b
    decreases |a|
  {
    if a != [] && b != [] {
      assert token(a[0]) && token(b[0]);
      LeftmostIsUnique(token, a[0].end, a[1..], b[1..]);
    }
  }

  /** `tokens`, as it runs. */
  method FindTokens(value: string) returns (found: seq<Span>)
    ensures found == Tokens(value, 0)
    ensures Leftmost(TokenIn(value), 0, found)
  {
    found := [];
    var start := 0;
    while start < |value|
      invariant found + Tokens(value, start) == Tokens(value, 0)
      decreases |value| - start
    {
      var token := NextToken(value, start);
      if token.None? {
        break;
      }
      found := found + [token.value];
      start := token.value.end;
    }
    TokensAreLeftmost(value, 0);
  }

  /** Unicode White_Space, which is what `trim` takes off. */
  predicate Blank(c: char) {
    var n := c as int;
    || 0x09 <= n <= 0x0D || n == 0x20 || n == 0x85 || n == 0xA0 || n == 0x1680
    || 0x2000 <= n <= 0x200A || n == 0x2028 || n == 0x2029 || n == 0x202F || n == 0x205F || n == 0x3000
  }

  function TrimStart(value: string): (i: nat)
    ensures i <= |value| && (forall j :: 0 <= j < i ==> Blank(value[j])) && (i < |value| ==> !Blank(value[i]))
  {
    if value == [] || !Blank(value[0]) then 0 else 1 + TrimStart(value[1..])
  }

  function TrimEnd(value: string): (i: nat)
    ensures i <= |value| && (forall j :: i <= j < |value| ==> Blank(value[j])) && (i > 0 ==> !Blank(value[i - 1]))
  {
    if value == [] || !Blank(value[|value| - 1]) then |value| else TrimEnd(value[..|value| - 1])
  }

  function Trim(value: string): string {
    var lo, hi := TrimStart(value), TrimEnd(value);
    if lo < hi then value[lo..hi] else []
  }

  /** Nothing for a value that is only a token; otherwise the value as it stands. */
  function Guard(value: string): Option<string> {
    var found := Tokens(value, 0);
    if |found| == 1 && Trim(value) == value[found[0].open..found[0].end]
    then None
    else Some(value)
  }

  predicate OnlyToken(value: string) {
    TokenAt(Trim(value), Span(0, |Trim(value)|))
  }

  lemma TokenWithin(value: string, lo: nat, hi: nat)
    requires lo <= hi <= |value|
    ensures TokenAt(value[lo..hi], Span(0, hi - lo)) <==> TokenAt(value, Span(lo, hi))
  {
    var part := value[lo..hi];
    assert forall i :: 0 <= i < |part| ==> part[i] == value[lo + i];
    assert |part| >= |ENV| ==> part[0..|ENV|] == value[lo..lo + |ENV|];
    assert |part| >= |FILE| ==> part[0..|FILE|] == value[lo..lo + |FILE|];
    if TokenAt(value, Span(lo, hi)) {
      forall i | AfterOpener(part, 0) <= i < |part| - 1 ensures part[i] != '}' {
        assert part[i] == value[lo + i];
      }
    }
    if TokenAt(part, Span(0, hi - lo)) {
      forall i | AfterOpener(value, lo) <= i < hi - 1 ensures value[i] != '}' {
        assert value[i] == part[i - lo];
      }
    }
  }

  lemma TrimIsPart(value: string)
    requires OnlyToken(value)
    ensures TrimStart(value) < TrimEnd(value) && Trim(value) == value[TrimStart(value)..TrimEnd(value)]
  {
    OpensWithBrace(Trim(value), 0);
  }

  lemma PartSpans(value: string, lo: nat, hi: nat, part: string)
    requires lo <= hi <= |value| && part == value[lo..hi] && TokenAt(part, Span(0, |part|))
    ensures TokenAt(value, Span(lo, hi))
  {
    TokenWithin(value, lo, hi);
  }

  lemma LoneSpan(value: string)
    requires OnlyToken(value)
    ensures TrimStart(value) < TrimEnd(value) && TokenAt(value, Span(TrimStart(value), TrimEnd(value)))
  {
    TrimIsPart(value);
    PartSpans(value, TrimStart(value), TrimEnd(value), Trim(value));
  }

  lemma LoneToken(value: string)
    requires OnlyToken(value)
    ensures TrimStart(value) < TrimEnd(value)
    ensures Tokens(value, 0) == [Span(TrimStart(value), TrimEnd(value))]
  {
    var lo, hi := TrimStart(value), TrimEnd(value);
    LoneSpan(value);
    NoTokenOutside(value);
    AloneIsLeftmost(value, lo, hi);
    TokensAreLeftmost(value, 0);
    OneTokenPerStart(value);
    LeftmostIsUnique(TokenIn(value), 0, Tokens(value, 0), [Span(lo, hi)]);
  }

  /** A token begins with a brace, so none begins among what is trimmed off. */
  lemma NoTokenOutside(value: string)
    ensures forall t :: TokenIn(value)(t) ==> TrimStart(value) <= t.open < TrimEnd(value)
  {
    forall t | TokenIn(value)(t) ensures TrimStart(value) <= t.open < TrimEnd(value) {
      OpensWithBrace(value, t.open);
    }
  }

  lemma AloneIsLeftmost(value: string, lo: nat, hi: nat)
    requires TokenIn(value)(Span(lo, hi)) && forall t :: TokenIn(value)(t) ==> lo <= t.open < hi
    ensures Leftmost(TokenIn(value), 0, [Span(lo, hi)])
  {}

  lemma OpensWithBrace(value: string, i: nat)
    requires Opens(value, i)
    ensures i < |value| && value[i] == '{' && !Blank(value[i])
  {
    assert StartsAt(value, ENV, i) ==> value[i] == value[i..i + |ENV|][0];
    assert StartsAt(value, FILE, i) ==> value[i] == value[i..i + |FILE|][0];
  }

  lemma RefusedIsAToken(value: string)
    requires Guard(value).None?
    ensures OnlyToken(value)
  {
    var found := Tokens(value, 0);
    FirstIsAToken(value);
    PartIsAToken(value, found[0], Trim(value));
  }

  lemma PartIsAToken(value: string, token: Span, part: string)
    requires TokenAt(value, token) && token.open <= token.end <= |value| && part == value[token.open..token.end]
    ensures TokenAt(part, Span(0, |part|))
  {
    TokenWithin(value, token.open, token.end);
  }

  lemma OneTokenPerStart(value: string)
    ensures OnePerStart(TokenIn(value))
  {
    forall a, b | TokenIn(value)(a) && TokenIn(value)(b) && a.open == b.open ensures a == b {
      assert value[a.end - 1] == '}' && value[b.end - 1] == '}';
    }
  }

  lemma FirstIsAToken(value: string)
    requires Tokens(value, 0) != []
    ensures TokenAt(value, Tokens(value, 0)[0])
  {
    TokensAreLeftmost(value, 0);
    assert TokenIn(value)(Tokens(value, 0)[0]);
  }

  lemma TokenIsRefused(value: string)
    requires OnlyToken(value)
    ensures Guard(value).None?
  {
    LoneToken(value);
  }

  /** A value is refused exactly when, trimmed, it is one token and nothing else. */
  lemma GuardRefusesTokens(value: string)
    ensures Guard(value).None? <==> OnlyToken(value)
    ensures Guard(value).Some? ==> Guard(value).value == value
  {
    if Guard(value).None? {
      RefusedIsAToken(value);
    } else if OnlyToken(value) {
      TokenIsRefused(value);
    }
  }

  /** What the pattern upstream matches finds: an opener, something that is not a `}`, and a `}`. */
  predicate PatternAt(value: string, span: Span) {
    && Opens(value, span.open) && AfterOpener(value, span.open) + 1 < span.end <= |value|
    && value[span.end - 1] == '}'
    && forall i :: AfterOpener(value, span.open) <= i < span.end - 1 ==> value[i] != '}'
  }

  const EMPTY_ENV := ENV + "}"
  const EMPTY_FILE := FILE + "}"

  /** The letter after the brace tells the openers apart. */
  lemma OpenerLetter(value: string, i: nat)
    requires Opens(value, i)
    ensures i + 1 < |value| && value[i] == '{'
    ensures value[i + 1] == if StartsAt(value, ENV, i) then 'e' else 'f'
  {
    var opener := if StartsAt(value, ENV, i) then ENV else FILE;
    assert value[i] == value[i..i + |opener|][0] && value[i + 1] == value[i..i + |opener|][1];
  }

  lemma EmptyTokens()
    ensures |EMPTY_ENV| == 6 && EMPTY_ENV[1] == 'e' && |EMPTY_FILE| == 7 && EMPTY_FILE[1] == 'f'
    ensures forall k :: 1 <= k < 6 ==> EMPTY_ENV[k] != '{'
    ensures forall k :: 1 <= k < 7 ==> EMPTY_FILE[k] != '{'
  {}

  /** A token here is one of that pattern's exactly when there is something between its opener and its `}`. */
  lemma BeyondThePattern(value: string, span: Span)
    requires TokenAt(value, span)
    ensures PatternAt(value, span) <==> value[span.open..span.end] !in [EMPTY_ENV, EMPTY_FILE]
    ensures PatternAt(value, span) <==> AfterOpener(value, span.open) < span.end - 1
  {
    var part, after := value[span.open..span.end], AfterOpener(value, span.open);
    OpenerLetter(value, span.open);
    EmptyTokens();
    assert part[1] == value[span.open + 1];
    if after == span.end - 1 {
      var opener := if StartsAt(value, ENV, span.open) then ENV else FILE;
      assert value[span.open..after] == opener && value[after..span.end] == "}";
      assert part == value[span.open..after] + value[after..span.end];
    } else {
      assert |part| > |ENV| + 1 && (part[1] == 'f' ==> |part| > |FILE| + 1);
    }
  }

  function PatternIn(value: string): Span -> bool {
    t => PatternAt(value, t)
  }

  /** The tokens found, less the empty ones. */
  function LessEmpty(value: string, found: seq<Span>): seq<Span> {
    if found == [] then []
    else (if PatternAt(value, found[0]) then [found[0]] else []) + LessEmpty(value, found[1..])
  }

  /** Nothing of the pattern begins within an empty token. */
  lemma NoneWithin(value: string, empty: Span, t: Span)
    requires TokenAt(value, empty) && !PatternAt(value, empty) && PatternAt(value, t) && empty.open <= t.open
    ensures empty.end <= t.open
  {
    BeyondThePattern(value, empty);
    EmptyTokens();
    OpenerLetter(value, t.open);
    forall k | empty.open < k < empty.end ensures value[k] != '{' {
      assert value[k] == value[empty.open..empty.end][k - empty.open];
    }
    assert AfterOpener(value, empty.open) == empty.end - 1;
  }

  /** What is found, less the empty tokens, is what the pattern finds: its leftmost matches, from any start. */
  lemma {:induction false} LessEmptyIsThePattern(value: string, start: nat)
    ensures Leftmost(PatternIn(value), start, LessEmpty(value, Tokens(value, start)))
    decreases |value| - start
  {
    NextTokenIsFirst(value, start);
    var token := NextToken(value, start);
    assert forall t :: PatternIn(value)(t) ==> TokenAt(value, t);
    if start < |value| && token.Some? {
      var rest := LessEmpty(value, Tokens(value, token.value.end));
      LessEmptyIsThePattern(value, token.value.end);
      assert Tokens(value, start)[1..] == Tokens(value, token.value.end);
      if PatternAt(value, token.value) {
        assert LessEmpty(value, Tokens(value, start)) == [token.value] + rest;
        assert ([token.value] + rest)[1..] == rest;
      } else {
        forall t | PatternIn(value)(t) && start <= t.open ensures token.value.end <= t.open {
          NoneWithin(value, token.value, t);
        }
        assert LessEmpty(value, Tokens(value, start)) == rest;
      }
    }
  }

  lemma EmptyEnv()
    ensures |EMPTY_ENV| == 6 && EMPTY_ENV[0] == '{' && EMPTY_ENV[5] == '}' && StartsAt(EMPTY_ENV, ENV, 0)
    ensures forall k :: 1 <= k < 6 ==> EMPTY_ENV[k] != '{'
  {
    assert EMPTY_ENV[0..0 + |ENV|] == ENV;
    EmptyTokens();
  }

  /** A value that is an empty token is left out, though the pattern upstream matches is nowhere in it. */
  lemma EmptyTokenIsRefused()
    ensures Guard(EMPTY_ENV) == None && forall span :: !PatternAt(EMPTY_ENV, span)
  {
    EmptyEnv();
    assert TrimStart(EMPTY_ENV) == 0 && TrimEnd(EMPTY_ENV) == 6 && EMPTY_ENV[0..6] == EMPTY_ENV;
    assert Trim(EMPTY_ENV) == EMPTY_ENV && TokenAt(EMPTY_ENV, Span(0, 6));
    GuardRefusesTokens(EMPTY_ENV);
    forall span ensures !PatternAt(EMPTY_ENV, span) {
      if Opens(EMPTY_ENV, span.open) {
        OpensWithBrace(EMPTY_ENV, span.open);
        assert span.open == 0;
      }
    }
  }

  predicate AllBlank(text: string) {
    forall i :: 0 <= i < |text| ==> Blank(text[i])
  }

  /** Trimming takes off blanks at both ends, all of them and nothing else. */
  lemma TrimTakesBlanks(value: string) returns (before: string, after: string)
    ensures value == before + Trim(value) + after && AllBlank(before) && AllBlank(after)
    ensures Trim(value) != [] ==> !Blank(Trim(value)[0]) && !Blank(Trim(value)[|Trim(value)| - 1])
  {
    var lo, hi := TrimStart(value), TrimEnd(value);
    TrimEnds(value);
    if lo < hi {
      before, after := value[..lo], value[hi..];
      Rejoined(value, lo, hi);
      BlankSides(value);
    } else {
      before, after := value, [];
      AllIsBlank(value);
    }
  }

  lemma BlankSides(value: string)
    ensures AllBlank(value[..TrimStart(value)]) && AllBlank(value[TrimEnd(value)..])
  {
    var hi := TrimEnd(value);
    assert forall i :: 0 <= i < |value| - hi ==> value[hi..][i] == value[hi + i];
  }

  lemma TrimEnds(value: string)
    ensures Trim(value) != [] ==> !Blank(Trim(value)[0]) && !Blank(Trim(value)[|Trim(value)| - 1])
  {
    var lo, hi := TrimStart(value), TrimEnd(value);
    if lo < hi {
      assert Trim(value)[0] == value[lo] && Trim(value)[hi - lo - 1] == value[hi - 1];
    }
  }

  lemma Rejoined(value: string, lo: nat, hi: nat)
    requires lo <= hi <= |value|
    ensures value == value[..lo] + value[lo..hi] + value[hi..]
  {}

  lemma AllIsBlank(value: string)
    requires TrimStart(value) >= TrimEnd(value)
    ensures AllBlank(value) && value == value + [] + []
  {
    var lo, hi := TrimStart(value), TrimEnd(value);
    forall i | 0 <= i < |value| ensures Blank(value[i]) {
      assert i < lo || hi <= i;
    }
  }
}
