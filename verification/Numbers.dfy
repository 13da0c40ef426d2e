/** What a number's own text says it is: a signed 64-bit whole number, a fraction, or nothing TOML holds. */
module Numbers {
  import opened Optional

  const LEAST := -0x8000_0000_0000_0000
  const MOST := 0x7FFF_FFFF_FFFF_FFFF

  predicate Digit(c: char) {
    '0' <= c <= '9'
  }

  predicate AllDigits(text: string) {
    forall i :: 0 <= i < |text| ==> Digit(text[i])
  }

  function Magnitude(digits: string): nat
    requires AllDigits(digits)
  {
    if digits == [] then 0
    else 10 * Magnitude(digits[..|digits| - 1]) + (digits[|digits| - 1] as int - '0' as int)
  }

  /** `text` as a signed 64-bit whole number. */
  function ParseWhole(text: string): (n: Option<int>)
    ensures n.Some? ==> LEAST <= n.value <= MOST
  {
    var signed := text != [] && (text[0] == '-' || text[0] == '+');
    var digits := if signed then text[1..] else text;
    if digits == [] || !AllDigits(digits) then None
    else
      var value: int := Magnitude(digits);
      var n := if signed && text[0] == '-' then -value else value;
      if LEAST <= n <= MOST then Some(n) else None
  }

  predicate WrittenAsFraction(text: string) {
    '.' in text || 'e' in text || 'E' in text
  }

  /** How many digits `text` starts with. */
  function DigitRun(text: string): (n: nat)
    ensures n <= |text|
  {
    if text == [] || !Digit(text[0]) then 0 else 1 + DigitRun(text[1..])
  }

  predicate ExponentOrNothing(text: string) {
    text == [] ||
    ((text[0] == 'e' || text[0] == 'E') &&
     var digits := if |text| > 1 && (text[1] == '+' || text[1] == '-') then text[2..] else text[1..];
     digits != [] && AllDigits(digits))
  }

  /** The decimal spellings a double is parsed from. */
  predicate SpellsDouble(text: string) {
    SpellsUnsigned(if text != [] && (text[0] == '+' || text[0] == '-') then text[1..] else text)
  }

  predicate SpellsUnsigned(body: string) {
    var whole := DigitRun(body);
    SpellsTail(whole > 0, body[whole..])
  }

  /** What may follow the whole digits, of which there were some or none. */
  predicate SpellsTail(some: bool, tail: string) {
    if tail != [] && tail[0] == '.' then AfterPoint(some, tail[1..]) else some && ExponentOrNothing(tail)
  }

  predicate AfterPoint(some: bool, after: string) {
    var part := DigitRun(after);
    (some || part > 0) && ExponentOrNothing(after[part..])
  }

  /** What TOML holds: a double where the literal is written as a fraction, and else a signed 64-bit whole number. */
  predicate FitsToml(text: string) {
    if WrittenAsFraction(text) then SpellsDouble(text) else ParseWhole(text).Some?
  }

  /** How a loader spells a number it read: a fraction as it stands, a whole number canonically. */
  function Loaded(text: string): string {
    if !WrittenAsFraction(text) && ParseWhole(text).Some? then Decimal(ParseWhole(text).value) else text
  }

  /** A whole number's one canonical spelling. */
  function Decimal(n: int): string {
    if n < 0 then "-" + DecimalNat(-n) else DecimalNat(n)
  }

  function DecimalNat(n: nat): (text: string)
    ensures text != [] && AllDigits(text)
  {
    var last := [('0' as int + n % 10) as char];
    if n < 10 then last else DecimalNat(n / 10) + last
  }

  lemma {:induction false} DecimalNatReads(n: nat)
    ensures Magnitude(DecimalNat(n)) == n
  {
    var text := DecimalNat(n);
    if n < 10 {
      assert text[..|text| - 1] == [];
    } else {
      DecimalNatReads(n / 10);
      assert text[..|text| - 1] == DecimalNat(n / 10);
    }
  }

  /** A whole number is read back from its canonical spelling exactly when signed 64 bits hold it. */
  lemma DecimalReads(n: int)
    ensures ParseWhole(Decimal(n)) == (if LEAST <= n <= MOST then Some(n) else None)
    ensures !WrittenAsFraction(Decimal(n))
  {
    var text := Decimal(n);
    if n < 0 {
      DecimalNatReads(-n);
      assert text[1..] == DecimalNat(-n);
    } else {
      DecimalNatReads(n);
      assert Digit(text[0]);
    }
    forall c | c in text ensures c == '-' || Digit(c) {
      var i :| 0 <= i < |text| && text[i] == c;
      assert i > 0 && n < 0 ==> text[i] == text[1..][i - 1];
    }
  }

  /** Digits as JSON spells a whole number with them: none in front that says nothing. */
  predicate NoLeadingZero(digits: string) {
    AllDigits(digits) && digits != [] && (|digits| > 1 ==> digits[0] != '0')
  }

  lemma {:induction false} NoLeadingZeroIsDecimal(digits: string)
    requires NoLeadingZero(digits)
    ensures DecimalNat(Magnitude(digits)) == digits
    ensures digits[0] != '0' ==> Magnitude(digits) > 0
  {
    var n := |digits| - 1;
    assert Digit(digits[n]);
    if n > 0 {
      NoLeadingZeroIsDecimal(digits[..n]);
      assert digits == digits[..n] + [digits[n]];
    } else {
      assert Magnitude(digits[..n]) == 0;
      assert digits == [digits[0]];
    }
  }

  /**
   * Each whole literal of JSON is the canonical spelling of one number, but for `-0`, which is zero: so what
   * becomes of the canonical spellings is what becomes of every whole literal.
   */
  lemma WholeIsDecimal(negative: bool, digits: string)
    requires NoLeadingZero(digits)
    ensures var text := (if negative then "-" else "") + digits;
            if text == "-0" then ParseWhole(text) == Some(0) else exists n :: text == Decimal(n)
  {
    var text := (if negative then "-" else "") + digits;
    NoLeadingZeroIsDecimal(digits);
    assert negative ==> text[1..] == digits;
    if digits == "0" {
      assert Magnitude(digits) == 0 by {
        assert digits[..0] == [];
      }
      if !negative {
        assert text == Decimal(0);
      }
    } else {
      assert |digits| == 1 ==> digits == [digits[0]];
      assert digits[0] != '0';
      assert text[|text| - |digits|..] == digits;
      var n: int := Magnitude(digits);
      assert text == Decimal(if negative then -n else n);
    }
  }

  /** The parts of a decimal double: a sign, digits, a point and digits after it, and an exponent. */
  datatype Parts = Parts(sign: string, whole: string, point: bool, part: string, exponent: string)
  {
    function Tail(): string {
      (if point then "." else "") + part + exponent
    }

    function Text(): string {
      sign + (whole + Tail())
    }

    predicate Proper() {
      && (sign == "" || sign == "+" || sign == "-") && AllDigits(whole) && AllDigits(part)
      && (whole != "" || part != "") && (!point ==> part == "") && ExponentOrNothing(exponent)
    }
  }

  /** An exponent: `e` or `E`, a sign or none, and a digit or more. */
  lemma ExponentReads(mark: char, sign: string, digits: string)
    requires (mark == 'e' || mark == 'E') && (sign == "" || sign == "+" || sign == "-") && AllDigits(digits)
             && digits != []
    ensures ExponentOrNothing([mark] + sign + digits)
  {
    var text := [mark] + sign + digits;
    if sign == "" {
      assert text[1..] == digits;
      assert Digit(text[1]);
    } else {
      assert text[2..] == digits;
    }
  }

  lemma {:induction false} DigitRunIs(digits: string, rest: string)
    requires AllDigits(digits) && (rest != [] ==> !Digit(rest[0]))
    ensures DigitRun(digits + rest) == |digits|
  {
    if digits != [] {
      assert (digits + rest)[1..] == digits[1..] + rest;
      DigitRunIs(digits[1..], rest);
    } else {
      assert digits + rest == rest;
    }
  }

  lemma {:induction false} DigitRunDigits(text: string)
    ensures AllDigits(text[..DigitRun(text)])
    ensures DigitRun(text) < |text| ==> !Digit(text[DigitRun(text)])
  {
    if text != [] && Digit(text[0]) {
      DigitRunDigits(text[1..]);
      var n := DigitRun(text[1..]);
      assert text[..n + 1] == [text[0]] + text[1..][..n];
    }
  }

  lemma TailSpells(parts: Parts)
    requires parts.Proper()
    ensures SpellsTail(parts.whole != "", parts.Tail())
    ensures parts.Tail() != [] ==> !Digit(parts.Tail()[0])
  {
    var tail, part, exponent := parts.Tail(), parts.part, parts.exponent;
    if exponent != "" {
      ExponentMark(exponent);
    }
    if parts.point {
      assert tail[0] == '.' && tail[1..] == part + exponent;
      DigitRunIs(part, exponent);
      assert (part + exponent)[|part|..] == exponent;
    } else {
      assert tail == exponent;
    }
  }

  lemma ExponentMark(exponent: string)
    requires ExponentOrNothing(exponent) && exponent != ""
    ensures exponent[0] == 'e' || exponent[0] == 'E'
  {}

  lemma UnsignedSpells(parts: Parts)
    requires parts.Proper()
    ensures SpellsUnsigned(parts.whole + parts.Tail())
  {
    TailSpells(parts);
    DigitRunIs(parts.whole, parts.Tail());
    assert (parts.whole + parts.Tail())[|parts.whole|..] == parts.Tail();
  }

  /** Whatever is put together of such parts spells a double, and is a fraction if it has a point or an exponent. */
  lemma PartsSpell(parts: Parts)
    requires parts.Proper()
    ensures SpellsDouble(parts.Text())
    ensures WrittenAsFraction(parts.Text()) <==> parts.point || parts.exponent != ""
  {
    var body := parts.whole + parts.Tail();
    UnsignedSpells(parts);
    FractionMarks(parts);
    if parts.sign == "" {
      StartsUnsigned(parts);
      assert parts.Text() == body;
    } else {
      assert parts.Text()[1..] == body;
    }
  }

  lemma StartsUnsigned(parts: Parts)
    requires parts.Proper()
    ensures var body := parts.whole + parts.Tail(); body != [] && body[0] != '+' && body[0] != '-'
  {
    if parts.whole != "" {
      assert Digit(parts.whole[0]);
    } else {
      assert parts.point && parts.Tail()[0] == '.';
    }
  }

  lemma FractionMarks(parts: Parts)
    requires parts.Proper()
    ensures WrittenAsFraction(parts.Text()) <==> parts.point || parts.exponent != ""
  {
    var text, n := parts.Text(), |parts.sign| + |parts.whole|;
    assert text[n..] == parts.Tail();
    if parts.point {
      assert text[n] == parts.Tail()[0] == '.';
    } else if parts.exponent != "" {
      ExponentMark(parts.exponent);
      assert text[n] == parts.Tail()[0] == parts.exponent[0];
    } else {
      assert text == parts.sign + parts.whole;
      forall c | c in text ensures c != '.' && c != 'e' && c != 'E' {
        var i :| 0 <= i < |text| && text[i] == c;
        assert i >= |parts.sign| ==> text[i] == parts.whole[i - |parts.sign|];
      }
    }
  }

  lemma SplitAgain(text: string, n: nat)
    requires n <= |text|
    ensures text[..n] + text[n..] == text
  {}

  /** And nothing else does. */
  lemma SpellsInParts(text: string) returns (parts: Parts)
    requires SpellsDouble(text)
    ensures parts.Proper() && parts.Text() == text
  {
    var signed := text != [] && (text[0] == '+' || text[0] == '-');
    var body := if signed then text[1..] else text;
    parts := UnsignedInParts(if signed then [text[0]] else "", body);
    assert signed ==> text == [text[0]] + body;
  }

  lemma UnsignedInParts(sign: string, body: string) returns (parts: Parts)
    requires sign == "" || sign == "+" || sign == "-"
    requires SpellsUnsigned(body)
    ensures parts.Proper() && parts.sign == sign && parts.whole + parts.Tail() == body
  {
    var n := DigitRun(body);
    DigitRunDigits(body);
    SplitAgain(body, n);
    var part, exponent := TailInParts(n > 0, body[n..]);
    parts := Parts(sign, body[..n], body[n..] != exponent, part, exponent);
  }

  lemma TailInParts(some: bool, tail: string) returns (part: string, exponent: string)
    requires SpellsTail(some, tail)
    ensures AllDigits(part) && ExponentOrNothing(exponent) && (some || part != "")
    ensures tail == (if tail != exponent then "." else "") + part + exponent
    ensures tail == exponent ==> part == ""
  {
    if tail != [] && tail[0] == '.' {
      var after := tail[1..];
      part, exponent := AfterPointInParts(some, after);
      PointAgain(tail, part, exponent);
    } else {
      part, exponent := "", tail;
    }
  }

  lemma AfterPointInParts(some: bool, after: string) returns (part: string, exponent: string)
    requires AfterPoint(some, after)
    ensures AllDigits(part) && ExponentOrNothing(exponent) && (some || part != "") && after == part + exponent
  {
    var m := DigitRun(after);
    DigitRunDigits(after);
    part, exponent := after[..m], after[m..];
    SplitAgain(after, m);
  }

  lemma PointAgain(tail: string, part: string, exponent: string)
    requires tail != [] && tail[0] == '.' && tail[1..] == part + exponent
    ensures tail == "." + part + exponent && |tail| > |exponent|
  {
    assert tail == ['.'] + tail[1..];
  }
}
