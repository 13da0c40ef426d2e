/** A JSON path as it is printed, and that no two paths print alike. */
module PathText {
  import opened Lists
  import opened JsonTree
  import opened Numbers

  function HexDigit(n: nat): char
    requires n < 16
  {
    if n < 10 then ('0' as int + n) as char else ('a' as int + n - 10) as char
  }

  function DigitValue(c: char): nat {
    if '0' <= c <= '9' then (c as int - '0' as int) as nat
    else if 'a' <= c <= 'f' then (c as int - 'a' as int + 10) as nat else 0
  }

  function Hex(n: nat): (text: string)
    ensures text != [] && forall i :: 0 <= i < |text| ==> text[i] != '}'
  {
    if n < 16 then [HexDigit(n)] else Hex(n / 16) + [HexDigit(n % 16)]
  }

  function HexValue(text: string): nat {
    if text == [] then 0 else 16 * HexValue(text[..|text| - 1]) + DigitValue(text[|text| - 1])
  }

  lemma {:induction false} HexReads(n: nat)
    ensures HexValue(Hex(n)) == n
  {
    if n < 16 {
      assert Hex(n)[..0] == [];
    } else {
      HexReads(n / 16);
      assert Hex(n)[..|Hex(n)| - 1] == Hex(n / 16);
    }
  }

  /** One character inside a quoted name. `shown` are the characters that print as themselves. */
  function Escape(shown: char -> bool, c: char): (text: string)
    ensures text != [] && text[0] != '"'
  {
    if c == '\0' then "\\0"
    else if c == '\t' then "\\t"
    else if c == '\r' then "\\r"
    else if c == '\n' then "\\n"
    else if c == '\\' then "\\\\"
    else if c == '"' then "\\\""
    else if shown(c) then [c]
    else "\\u{" + Hex(c as int) + "}"
  }

  function Escaped(shown: char -> bool, name: string): string {
    if name == [] then [] else Escape(shown, name[0]) + Escaped(shown, name[1..])
  }

  predicate Letter(c: char) {
    'a' <= c <= 'z' || 'A' <= c <= 'Z' || c == '_' || c == '$'
  }

  /** A name a reader could type without quotes. */
  predicate Bare(name: string) {
    name != [] && Letter(name[0]) && forall i :: 0 <= i < |name| ==> Letter(name[i]) || Digit(name[i])
  }

  function Segment(shown: char -> bool, step: Step): (text: string)
    ensures text != []
  {
    match step
    case Key(key) => if Bare(key) then "." + key else ['[', QUOTE] + Escaped(shown, key) + [QUOTE, ']']
    case Index(index) => "[" + DecimalNat(index) + "]"
  }

  function Segments(shown: char -> bool, path: Path): string {
    if path == [] then [] else Segment(shown, path[0]) + Segments(shown, path[1..])
  }

  function Printed(shown: char -> bool, path: Path): string {
    "$" + Segments(shown, path)
  }

  // Reading one back off the front of the other.

  lemma SameRun(a: string, b: string, x: string, y: string, stop: char)
    requires a + [stop] + x == b + [stop] + y
    requires forall i :: 0 <= i < |a| ==> a[i] != stop
    requires forall i :: 0 <= i < |b| ==> b[i] != stop
    ensures a == b && x == y
  {
    var all, same := a + [stop] + x, b + [stop] + y;
    assert all[|a|] == stop && same[|b|] == stop;
    assert forall i :: 0 <= i < |a| ==> all[i] == a[i];
    assert forall i :: 0 <= i < |b| ==> same[i] == b[i];
    assert |a| == |b|;
    assert a == all[..|a|] && b == same[..|b|];
    assert x == all[|a| + 1..] && y == same[|b| + 1..];
  }

  lemma SameTail(a: string, x: string, y: string)
    requires a + x == a + y
    ensures x == y
  {
    assert x == (a + x)[|a|..] && y == (a + y)[|a|..];
  }

  /** No character's text is the start of another's. */
  lemma EscapeReads(shown: char -> bool, c: char, d: char, x: string, y: string)
    requires Escape(shown, c) + x == Escape(shown, d) + y
    ensures c == d && x == y
  {
    var a, b := Escape(shown, c), Escape(shown, d);
    assert (a + x)[0] == a[0] && (b + y)[0] == b[0];
    if a[0] == '\\' {
      assert (a + x)[1] == a[1] && (b + y)[1] == b[1];
      if a[1] == 'u' {
        CodeReads(c, d, x, y, a, b);
      } else {
        assert |a| == 2 && |b| == 2;
        assert a == b;
      }
    }
    SameTail(a, x, y);
  }

  lemma CodeReads(c: char, d: char, x: string, y: string, a: string, b: string)
    requires a == "\\u{" + Hex(c as int) + "}" && b == "\\u{" + Hex(d as int) + "}" && a + x == b + y
    ensures c == d
  {
    assert a + x == "\\u{" + (Hex(c as int) + ['}'] + x);
    assert b + y == "\\u{" + (Hex(d as int) + ['}'] + y);
    SameTail("\\u{", Hex(c as int) + ['}'] + x, Hex(d as int) + ['}'] + y);
    SameRun(Hex(c as int), Hex(d as int), x, y, '}');
    HexReads(c as int);
    HexReads(d as int);
  }

  const QUOTE := '"'

  lemma QuotedHead(shown: char -> bool, name: string, x: string)
    ensures var all := Escaped(shown, name) + [QUOTE] + x;
            && (name == [] ==> all == [QUOTE] + x)
            && (name != [] ==> all == Escape(shown, name[0]) + (Escaped(shown, name[1..]) + [QUOTE] + x))
            && (name == [] <==> all[0] == QUOTE)
  {
    if name != [] {
      var first, rest := Escape(shown, name[0]), Escaped(shown, name[1..]);
      assert first + rest + [QUOTE] + x == first + (rest + [QUOTE] + x);
      assert (first + (rest + [QUOTE] + x))[0] == first[0];
    }
  }

  lemma {:induction false} QuotedReads(shown: char -> bool, a: string, b: string, x: string, y: string)
    requires Escaped(shown, a) + [QUOTE] + x == Escaped(shown, b) + [QUOTE] + y
    ensures a == b && x == y
  {
    QuotedHead(shown, a, x);
    QuotedHead(shown, b, y);
    if a != [] {
      EscapeReads(shown, a[0], b[0], Escaped(shown, a[1..]) + [QUOTE] + x, Escaped(shown, b[1..]) + [QUOTE] + y);
      QuotedReads(shown, a[1..], b[1..], x, y);
      assert a == [a[0]] + a[1..] && b == [b[0]] + b[1..];
    } else {
      SameTail([QUOTE], x, y);
    }
  }

  /** The text of a path begins where a segment may. */
  predicate AtSegment(text: string) {
    text == [] || text[0] == '.' || text[0] == '['
  }

  lemma BareReads(a: string, b: string, x: string, y: string)
    requires Bare(a) && Bare(b) && AtSegment(x) && AtSegment(y) && a + x == b + y
    ensures a == b && x == y
  {
    var all, same := a + x, b + y;
    assert forall i :: 0 <= i < |a| ==> all[i] == a[i];
    assert forall i :: 0 <= i < |b| ==> same[i] == b[i];
    assert x != [] ==> all[|a|] == x[0];
    assert y != [] ==> same[|b|] == y[0];
    assert |a| == |b|;
    assert a == all[..|a|] && b == same[..|b|];
    SameTail(a, x, y);
  }

  lemma SegmentsStart(shown: char -> bool, path: Path)
    ensures AtSegment(Segments(shown, path)) && (path != [] ==> Segments(shown, path) != [])
  {
    if path != [] {
      var text := Segment(shown, path[0]);
      assert (text + Segments(shown, path[1..]))[0] == text[0];
    }
  }

  lemma Regrouped(text: string, x: string)
    ensures ['[', QUOTE] + text + [QUOTE, ']'] + x == ['[', QUOTE] + (text + [QUOTE] + ([']'] + x))
  {
    assert [QUOTE, ']'] + x == [QUOTE] + ([']'] + x);
  }

  lemma QuotedSegmentReads(shown: char -> bool, a: string, b: string, x: string, y: string)
    requires ['[', QUOTE] + Escaped(shown, a) + [QUOTE, ']'] + x == ['[', QUOTE] + Escaped(shown, b) + [QUOTE, ']'] + y
    ensures a == b && x == y
  {
    var s, t := Escaped(shown, a), Escaped(shown, b);
    Regrouped(s, x);
    Regrouped(t, y);
    SameTail(['[', QUOTE], s + [QUOTE] + ([']'] + x), t + [QUOTE] + ([']'] + y));
    QuotedReads(shown, a, b, [']'] + x, [']'] + y);
    SameTail([']'], x, y);
  }

  lemma SegmentReads(shown: char -> bool, a: Step, b: Step, x: string, y: string)
    requires AtSegment(x) && AtSegment(y) && Segment(shown, a) + x == Segment(shown, b) + y
    ensures a == b && x == y
  {
    var s, t := Segment(shown, a), Segment(shown, b);
    assert (s + x)[0] == s[0] && (t + y)[0] == t[0];
    if a.Key? && Bare(a.key) {
      assert s + x == "." + (a.key + x) && t + y == "." + (b.key + y);
      SameTail(".", a.key + x, b.key + y);
      BareReads(a.key, b.key, x, y);
    } else {
      assert (s + x)[1] == s[1] && (t + y)[1] == t[1];
      if a.Key? {
        QuotedSegmentReads(shown, a.key, b.key, x, y);
      } else {
        assert Digit(s[1]) && b.Index?;
        IndexReads(a.index, b.index, x, y);
      }
    }
  }

  lemma IndexReads(a: nat, b: nat, x: string, y: string)
    requires "[" + DecimalNat(a) + "]" + x == "[" + DecimalNat(b) + "]" + y
    ensures a == b && x == y
  {
    var s, t := DecimalNat(a), DecimalNat(b);
    assert "[" + s + "]" + x == "[" + (s + [']'] + x) && "[" + t + "]" + y == "[" + (t + [']'] + y);
    SameTail("[", s + [']'] + x, t + [']'] + y);
    assert forall i :: 0 <= i < |s| ==> Digit(s[i]);
    assert forall i :: 0 <= i < |t| ==> Digit(t[i]);
    SameRun(s, t, x, y, ']');
    DecimalNatReads(a);
    DecimalNatReads(b);
  }

  lemma {:induction false} SegmentsRead(shown: char -> bool, a: Path, b: Path)
    requires Segments(shown, a) == Segments(shown, b)
    ensures a == b
  {
    SegmentsStart(shown, a);
    SegmentsStart(shown, b);
    if a != [] && b != [] {
      SegmentsStart(shown, a[1..]);
      SegmentsStart(shown, b[1..]);
      SegmentReads(shown, a[0], b[0], Segments(shown, a[1..]), Segments(shown, b[1..]));
      SegmentsRead(shown, a[1..], b[1..]);
      assert a == [a[0]] + a[1..] && b == [b[0]] + b[1..];
    }
  }

  /** A printed path names one path, whatever its keys are spelled with. */
  lemma PrintedNamesOnePath(shown: char -> bool, a: Path, b: Path)
    ensures Printed(shown, a) == Printed(shown, b) <==> a == b
  {
    if Printed(shown, a) == Printed(shown, b) {
      SameTail("$", Segments(shown, a), Segments(shown, b));
      SegmentsRead(shown, a, b);
    }
  }

  /** One step more prints one segment more: a name as typed, a quoted name, or a place in a list. */
  lemma PrintedStep(shown: char -> bool, path: Path, step: Step)
    ensures Printed(shown, []) == "$"
    ensures Printed(shown, path + [step])
            == Printed(shown, path)
               + if step.Index? then "[" + DecimalNat(step.index) + "]"
                 else if Bare(step.key) then "." + step.key
                 else "[\"" + Escaped(shown, step.key) + "\"]"
  {
    SegmentsAppend(shown, path, step);
    Regroup("$", Segments(shown, path), Segment(shown, step));
    SegmentText(shown, step);
  }

  lemma SegmentText(shown: char -> bool, step: Step)
    ensures Segment(shown, step)
            == if step.Index? then "[" + DecimalNat(step.index) + "]"
               else if Bare(step.key) then "." + step.key
               else "[\"" + Escaped(shown, step.key) + "\"]"
  {
    assert ['[', QUOTE] == "[\"" && [QUOTE, ']'] == "\"]";
  }

  lemma {:induction false} SegmentsAppend(shown: char -> bool, path: Path, step: Step)
    ensures Segments(shown, path + [step]) == Segments(shown, path) + Segment(shown, step)
  {
    if path == [] {
      assert path + [step] == [step] && [step][1..] == [];
    } else {
      assert (path + [step])[0] == path[0] && (path + [step])[1..] == path[1..] + [step];
      SegmentsAppend(shown, path[1..], step);
    }
  }
}
