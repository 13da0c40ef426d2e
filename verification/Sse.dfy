/**
 * Frames out of a byte stream. A frame is a run of lines closed by an empty one; bytes are written as the
 * characters of their codes.
 */
module Sse {
  import opened Optional

  type Bytes = string

  const LF := '\n'
  const CR := '\r'

  const MESSAGE := "message"
  const EVENT := "event: "
  const DATA := "data: "

  predicate Pair(buffer: Bytes, i: nat) {
    i + 1 < |buffer| && buffer[i] == LF && buffer[i + 1] == LF
  }

  /** Where the newline pair that closes a frame begins; the length when there is none. */
  function Blank(buffer: Bytes): (i: nat)
    ensures i <= |buffer| && (i < |buffer| ==> Pair(buffer, i))
    ensures forall j: nat :: j < i ==> !Pair(buffer, j)
  {
    if |buffer| < 2 then |buffer|
    else if Pair(buffer, 0) then 0
    else
      assert forall j: nat :: j > 0 ==> Pair(buffer, j) == Pair(buffer[1..], j - 1);
      1 + Blank(buffer[1..])
  }

  lemma BlankIs(buffer: Bytes, i: nat)
    requires Pair(buffer, i) && forall j: nat :: j < i ==> !Pair(buffer, j)
    ensures Blank(buffer) == i
  {}

  /** A whole frame: its one newline pair is its end. */
  predicate Whole(block: Bytes) {
    |block| >= 2 && Blank(block) == |block| - 2
  }

  predicate AllWhole(blocks: seq<Bytes>) {
    forall i :: 0 <= i < |blocks| ==> Whole(blocks[i])
  }

  /** The whole frames of a stream, in order. */
  function Split(stream: Bytes): seq<Bytes>
    decreases |stream|
  {
    var end := Blank(stream);
    if end == |stream| then [] else [stream[..end + 2]] + Split(stream[end + 2..])
  }

  function Flat(blocks: seq<Bytes>): Bytes {
    if blocks == [] then [] else blocks[0] + Flat(blocks[1..])
  }

  function StripCr(line: Bytes): Bytes {
    if line != [] && line[|line| - 1] == CR then line[..|line| - 1] else line
  }

  function LineEnd(text: Bytes): (i: nat)
    ensures i <= |text| && (i < |text| ==> text[i] == LF) && forall j :: 0 <= j < i ==> text[j] != LF
  {
    if text == [] || text[0] == LF then 0 else 1 + LineEnd(text[1..])
  }

  /** The lines of a text, each without its line ending; an unended last line keeps its carriage return. */
  function Lines(text: Bytes): seq<Bytes>
    decreases |text|
  {
    var end := LineEnd(text);
    if text == [] then []
    else if end == |text| then [text]
    else [StripCr(text[..end])] + Lines(text[end + 1..])
  }

  datatype Fields = Fields(name: Bytes, data: Bytes)

  function Field(fields: Fields, line: Bytes): Fields {
    var line := StripCr(line);
    if EVENT <= line then fields.(name := line[|EVENT|..])
    else if DATA <= line then
      fields.(data := fields.data + (if fields.data == [] then [] else [LF]) + line[|DATA|..])
    else fields
  }

  function Collected(lines: seq<Bytes>): Fields {
    if lines == [] then Fields(MESSAGE, [])
    else Field(Collected(lines[..|lines| - 1]), lines[|lines| - 1])
  }

  /** What a frame says. */
  function Read(block: Bytes): Fields {
    Collected(Lines(block))
  }

  class Frames {
    var buffer: Bytes
    /** Everything pushed, and the frames popped so far. */
    ghost var pushed: Bytes
    ghost var popped: seq<Bytes>

    ghost predicate Valid()
      reads this
    {
      pushed == Flat(popped) + buffer && AllWhole(popped)
    }

    constructor ()
      ensures Valid() && pushed == [] && popped == []
    {
      buffer, pushed, popped := [], [], [];
    }

    method Push(bytes: Bytes)
      requires Valid()
      modifies this
      ensures Valid() && pushed == old(pushed) + bytes && popped == old(popped)
      ensures buffer == old(buffer) + bytes
    {
      buffer := buffer + bytes;
      pushed := pushed + bytes;
    }

    /** The next whole frame, when the bytes so far hold one. */
    method Pop() returns (fields: Option<Fields>)
      requires Valid()
      modifies this
      ensures Valid() && pushed == old(pushed)
      ensures fields.None? ==> Split(old(buffer)) == [] && popped == old(popped) && buffer == old(buffer)
      ensures fields.Some? ==>
                && |popped| == |old(popped)| + 1 && popped[..|old(popped)|] == old(popped)
                && fields.value == Read(popped[|old(popped)|]) && Whole(popped[|old(popped)|])
                && old(buffer) == popped[|old(popped)|] + buffer
    {
      var end := Blank(buffer);
      if end == |buffer| {
        return None;
      }
      var raw := buffer[..end + 2];
      buffer := buffer[end + 2..];
      BlankOfPrefix(old(buffer));
      OneMore(popped, raw, buffer);
      assert old(buffer) == raw + buffer;
      popped := popped + [raw];
      var read := ReadBlock(raw);
      return Some(read);
    }
  }

  method ReadBlock(raw: Bytes) returns (read: Fields)
    ensures read == Read(raw)
  {
    var lines := Lines(raw);
    read := Fields(MESSAGE, []);
    for n := 0 to |lines|
      invariant read == Collected(lines[..n])
    {
      assert lines[..n + 1][..n] == lines[..n];
      ghost var before := read;
      var line := StripCr(lines[n]);
      if EVENT <= line {
        read := read.(name := line[|EVENT|..]);
      } else if DATA <= line {
        var data := if read.data == [] then [] else read.data + [LF];
        read := read.(data := data + line[|DATA|..]);
        assert before.data + [] == before.data;
      }
      assert read == Field(before, lines[n]);
    }
    assert lines[..|lines|] == lines;
  }

  lemma BlankOfPrefix(buffer: Bytes)
    requires Blank(buffer) < |buffer|
    ensures Whole(buffer[..Blank(buffer) + 2])
  {
    var end := Blank(buffer);
    var block := buffer[..end + 2];
    assert forall j: nat :: j <= end ==> Pair(block, j) == Pair(buffer, j);
    BlankIs(block, end);
  }

  lemma {:induction false} FlatAppend(blocks: seq<Bytes>, block: Bytes)
    ensures Flat(blocks + [block]) == Flat(blocks) + block
  {
    if blocks == [] {
      assert [block][1..] == [];
    } else {
      assert (blocks + [block])[1..] == blocks[1..] + [block];
      FlatAppend(blocks[1..], block);
    }
  }

  lemma OneMore(blocks: seq<Bytes>, block: Bytes, rest: Bytes)
    requires AllWhole(blocks) && Whole(block)
    ensures AllWhole(blocks + [block]) && Flat(blocks) + (block + rest) == Flat(blocks + [block]) + rest
  {
    FlatAppend(blocks, block);
  }

  lemma WholeThen(block: Bytes, rest: Bytes)
    requires Whole(block)
    ensures Blank(block + rest) == |block| - 2
  {
    assert forall j: nat :: j <= |block| - 2 ==> Pair(block + rest, j) == Pair(block, j);
    BlankIs(block + rest, |block| - 2);
  }

  lemma SplitFirst(block: Bytes, rest: Bytes)
    requires Whole(block)
    ensures Split(block + rest) == [block] + Split(rest)
  {
    var all := block + rest;
    WholeThen(block, rest);
    assert all[..|block|] == block && all[|block|..] == rest;
  }

  lemma {:induction false} SplitFlat(blocks: seq<Bytes>, rest: Bytes)
    requires AllWhole(blocks)
    ensures Split(Flat(blocks) + rest) == blocks + Split(rest)
  {
    if blocks == [] {
      assert Flat(blocks) + rest == rest && blocks + Split(rest) == Split(rest);
    } else {
      SplitFlat(blocks[1..], rest);
      SplitMore(blocks, rest, Flat(blocks[1..]) + rest, Split(rest));
    }
  }

  lemma SplitMore(blocks: seq<Bytes>, rest: Bytes, tail: Bytes, others: seq<Bytes>)
    requires blocks != [] && Whole(blocks[0])
    requires tail == Flat(blocks[1..]) + rest && Split(tail) == blocks[1..] + others
    ensures Split(Flat(blocks) + rest) == blocks + others
  {
    SplitFirst(blocks[0], tail);
    FirstOfFlat(blocks, rest);
    assert [blocks[0]] + (blocks[1..] + others) == blocks + others;
  }

  lemma FirstOfFlat(blocks: seq<Bytes>, rest: Bytes)
    requires blocks != []
    ensures Flat(blocks) + rest == blocks[0] + (Flat(blocks[1..]) + rest)
  {}

  /**
   * Whatever the interleaving of pushes and pops, what has come out is the start of the split of all that
   * went in, and what is left to come is the rest of it.
   */
  lemma PoppedAreTheSplit(pushed: Bytes, popped: seq<Bytes>, buffer: Bytes)
    requires pushed == Flat(popped) + buffer && AllWhole(popped)
    ensures Split(pushed) == popped + Split(buffer)
    ensures Split(buffer) == [] ==> popped == Split(pushed)
  {
    SplitFlat(popped, buffer);
  }

  // Writing a frame, and reading it back.

  function Ended(lines: seq<Bytes>): Bytes {
    if lines == [] then [] else lines[0] + [LF] + Ended(lines[1..])
  }

  function DataLines(payload: seq<Bytes>): (lines: seq<Bytes>)
    ensures |lines| == |payload|
  {
    seq(|payload|, i requires 0 <= i < |payload| => DATA + payload[i])
  }

  /** A frame as it is written: an `event:` line, a `data:` line for each line of the payload, an empty line. */
  function Print(name: Bytes, payload: seq<Bytes>): Bytes {
    Ended(PrintLines(name, payload)) + [LF]
  }

  /** The frame serve writes: its payload is one line. */
  function PrintOne(name: Bytes, data: Bytes): Bytes {
    EVENT + name + [LF] + DATA + data + [LF, LF]
  }

  lemma PrintOneIsPrint(name: Bytes, data: Bytes)
    ensures PrintOne(name, data) == Print(name, [data])
  {
    var lines := [EVENT + name, DATA + data];
    assert PrintLines(name, [data]) == lines;
    assert lines[1..] == [DATA + data] && lines[1..][1..] == [];
    assert Ended(lines[1..]) == DATA + data + [LF] + [];
    assert Ended(lines) == EVENT + name + [LF] + (DATA + data + [LF]);
  }

  function Joined(payload: seq<Bytes>): Bytes {
    if payload == [] then []
    else if |payload| == 1 then payload[0]
    else Joined(payload[..|payload| - 1]) + [LF] + payload[|payload| - 1]
  }

  predicate OneLine(text: Bytes) {
    forall i :: 0 <= i < |text| ==> text[i] != LF
  }

  predicate Unended(text: Bytes) {
    text == [] || text[|text| - 1] != CR
  }

  predicate AllOneLine(lines: seq<Bytes>) {
    forall i :: 0 <= i < |lines| ==> OneLine(lines[i])
  }

  lemma {:induction false} BlankAfter(lines: seq<Bytes>)
    requires lines != [] && AllOneLine(lines) && forall i :: 0 <= i < |lines| ==> lines[i] != []
    ensures Ended(lines) != [] && Ended(lines)[0] != LF && Blank(Ended(lines) + [LF]) == |Ended(lines)| - 1
    decreases |lines|
  {
    var first, tail := lines[0], Ended(lines[1..]);
    var all := Ended(lines) + [LF];
    assert Ended(lines) == first + [LF] + tail && Ended(lines)[0] == first[0];
    if |lines| == 1 {
      assert tail == [];
      assert all == first + [LF, LF];
      FirstPair(first, [LF, LF]);
    } else {
      BlankAfter(lines[1..]);
      var later := tail + [LF];
      assert all == first + [LF] + later;
      BlankShifts(first, later);
    }
  }

  lemma FirstPair(line: Bytes, rest: Bytes)
    requires OneLine(line) && rest == [LF, LF]
    ensures Blank(line + rest) == |line|
  {
    var all := line + rest;
    assert forall j: nat :: j < |line| ==> all[j] == line[j];
    BlankIs(all, |line|);
  }

  lemma PairShifts(all: Bytes, n: nat, j: nat)
    requires n <= |all|
    ensures Pair(all, n + j) <==> Pair(all[n..], j)
  {}

  lemma BlankShifts(line: Bytes, tail: Bytes)
    requires OneLine(line) && tail != [] && tail[0] != LF && Blank(tail) < |tail|
    ensures Blank(line + [LF] + tail) == |line| + 1 + Blank(tail)
  {
    var all, n := line + [LF] + tail, |line| + 1;
    assert all[n..] == tail;
    NoPairEarly(line, tail);
    FirstPairShifts(all, n, Blank(tail));
    BlankIs(all, n + Blank(tail));
  }

  lemma FirstPairShifts(all: Bytes, n: nat, k: nat)
    requires n <= |all| && Pair(all[n..], k) && forall j: nat :: j < k ==> !Pair(all[n..], j)
    requires forall j: nat :: j < n ==> !Pair(all, j)
    ensures Pair(all, n + k) && forall j: nat :: j < n + k ==> !Pair(all, j)
  {
    PairShifts(all, n, k);
    forall j: nat | j < n + k ensures !Pair(all, j) {
      if j >= n {
        PairShifts(all, n, j - n);
      }
    }
  }

  lemma NoPairEarly(line: Bytes, tail: Bytes)
    requires OneLine(line) && tail != [] && tail[0] != LF
    ensures forall j: nat :: j <= |line| ==> !Pair(line + [LF] + tail, j)
  {
    var all := line + [LF] + tail;
    forall j: nat | j <= |line| ensures !Pair(all, j) {
      if j < |line| {
        assert all[j] == line[j];
      } else {
        assert all[j + 1] == tail[0];
      }
    }
  }

  lemma PrintIsWhole(name: Bytes, payload: seq<Bytes>)
    requires OneLine(name) && AllOneLine(payload)
    ensures Whole(Print(name, payload))
  {
    var lines := PrintLines(name, payload);
    PrintLinesAreLines(name, payload);
    BlankAfter(lines);
  }

  function Stripped(lines: seq<Bytes>): (r: seq<Bytes>)
    ensures |r| == |lines|
  {
    seq(|lines|, i requires 0 <= i < |lines| => StripCr(lines[i]))
  }

  lemma {:induction false} LinesOfEnded(lines: seq<Bytes>)
    requires AllOneLine(lines)
    ensures Lines(Ended(lines) + [LF]) == Stripped(lines) + [[]]
  {
    if lines == [] {
      EmptyLine();
      assert Ended(lines) + [LF] == [LF];
    } else {
      var first, tail := lines[0], Ended(lines[1..]) + [LF];
      assert Ended(lines) + [LF] == first + [LF] + tail;
      FirstLine(first, tail);
      LinesOfEnded(lines[1..]);
      StrippedSplit(lines);
    }
  }

  lemma EmptyLine()
    ensures Lines([LF]) == [[]]
  {
    var all := [LF];
    assert LineEnd(all) == 0 && all[1..] == [] && all[..0] == [] && Lines([]) == [];
    assert Lines(all) == [StripCr([])] + [];
  }

  lemma StrippedSplit(lines: seq<Bytes>)
    requires lines != []
    ensures Stripped(lines) + [[]] == [StripCr(lines[0])] + (Stripped(lines[1..]) + [[]])
  {}

  lemma FirstLine(line: Bytes, rest: Bytes)
    requires OneLine(line)
    ensures Lines(line + [LF] + rest) == [StripCr(line)] + Lines(rest)
  {
    var all := line + [LF] + rest;
    assert forall j :: 0 <= j < |line| ==> all[j] == line[j];
    assert all[|line|] == LF;
    assert LineEnd(all) == |line|;
    assert all[..|line|] == line && all[|line| + 1..] == rest;
  }

  function Bare(text: Bytes): Bytes {
    StripCr(StripCr(text))
  }

  lemma BareOf(prefix: Bytes, text: Bytes)
    requires |prefix| >= 1 && prefix[|prefix| - 1] != CR
    ensures StripCr(StripCr(prefix + text)) == prefix + Bare(text)
  {
    var all := prefix + text;
    if text != [] && text[|text| - 1] == CR {
      assert StripCr(all) == prefix + StripCr(text);
      var once := StripCr(text);
      if once != [] && once[|once| - 1] == CR {
        assert StripCr(prefix + once) == prefix + StripCr(once);
      }
    }
  }

  function Gathered(payload: seq<Bytes>): Bytes {
    if payload == [] then []
    else
      var before := Gathered(payload[..|payload| - 1]);
      before + (if before == [] then [] else [LF]) + Bare(payload[|payload| - 1])
  }

  lemma FieldOfName(fields: Fields, name: Bytes)
    ensures Field(fields, StripCr(EVENT + name)) == fields.(name := Bare(name))
  {
    BareOf(EVENT, name);
    assert (EVENT + Bare(name))[|EVENT|..] == Bare(name);
  }

  lemma FieldOfData(fields: Fields, data: Bytes)
    ensures Field(fields, StripCr(DATA + data))
            == fields.(data := fields.data + (if fields.data == [] then [] else [LF]) + Bare(data))
  {
    BareOf(DATA, data);
    assert DATA[0] == 'd' && EVENT[0] == 'e';
    assert (DATA + Bare(data))[|DATA|..] == Bare(data);
  }

  function PrintLines(name: Bytes, payload: seq<Bytes>): (lines: seq<Bytes>)
    ensures |lines| == |payload| + 1 && lines[0] == EVENT + name
    ensures forall i :: 0 < i < |lines| ==> lines[i] == DATA + payload[i - 1]
  {
    [EVENT + name] + DataLines(payload)
  }

  lemma {:induction false} CollectedPrint(name: Bytes, payload: seq<Bytes>, n: nat)
    requires n <= |payload|
    ensures Collected(Stripped(PrintLines(name, payload))[..n + 1]) == Fields(Bare(name), Gathered(payload[..n]))
  {
    var lines := Stripped(PrintLines(name, payload));
    CollectedMore(lines, n);
    if n == 0 {
      assert lines[0] == StripCr(EVENT + name);
      FieldOfName(Fields(MESSAGE, []), name);
    } else {
      assert lines[n] == StripCr(DATA + payload[n - 1]);
      CollectedPrint(name, payload, n - 1);
      FieldOfData(Fields(Bare(name), Gathered(payload[..n - 1])), payload[n - 1]);
      GatheredMore(payload, n - 1);
    }
  }

  lemma CollectedMore(lines: seq<Bytes>, n: nat)
    requires n < |lines|
    ensures Collected(lines[..n + 1]) == Field(Collected(lines[..n]), lines[n])
    ensures n == 0 ==> Collected(lines[..n]) == Fields(MESSAGE, [])
  {
    assert lines[..n + 1][..n] == lines[..n];
  }

  lemma GatheredMore(payload: seq<Bytes>, n: nat)
    requires n < |payload|
    ensures Gathered(payload[..n + 1])
            == Gathered(payload[..n]) + (if Gathered(payload[..n]) == [] then [] else [LF]) + Bare(payload[n])
  {
    assert payload[..n + 1][..n] == payload[..n];
  }

  lemma PrintLinesAreLines(name: Bytes, payload: seq<Bytes>)
    requires OneLine(name) && AllOneLine(payload)
    ensures AllOneLine(PrintLines(name, payload))
            && forall i :: 0 <= i < |payload| + 1 ==> PrintLines(name, payload)[i] != []
  {
    var lines := PrintLines(name, payload);
    forall i | 0 <= i < |lines| ensures OneLine(lines[i]) && lines[i] != [] {
      if i > 0 {
        assert OneLine(payload[i - 1]);
      }
    }
  }

  lemma CollectedThenBlank(lines: seq<Bytes>)
    ensures Collected(lines + [[]]) == Collected(lines)
  {
    var all := lines + [[]];
    assert all[..|all| - 1] == lines && all[|all| - 1] == [];
  }

  lemma ReadOfPrint(name: Bytes, payload: seq<Bytes>)
    requires OneLine(name) && AllOneLine(payload)
    ensures Read(Print(name, payload)) == Fields(Bare(name), Gathered(payload))
  {
    var lines := PrintLines(name, payload);
    PrintLinesAreLines(name, payload);
    LinesOfEnded(lines);
    CollectedPrint(name, payload, |payload|);
    CollectedThenBlank(Stripped(lines));
    assert Stripped(lines)[..|payload| + 1] == Stripped(lines) && payload[..|payload|] == payload;
  }

  predicate AllUnended(lines: seq<Bytes>) {
    forall i :: 0 <= i < |lines| ==> Unended(lines[i])
  }

  lemma BareExactly(text: Bytes)
    ensures |Bare(text)| <= |text| && (Bare(text) == text <==> Unended(text))
            && (|Bare(text)| == |text| <==> Unended(text))
  {}

  /** The payload comes back no longer than it was, and as it was exactly when no line end or empty start is lost. */
  lemma {:induction false} GatheredExactly(payload: seq<Bytes>)
    ensures |Gathered(payload)| <= |Joined(payload)|
    ensures Gathered(payload) == Joined(payload) <==> AllUnended(payload) && (|payload| <= 1 || payload[0] != [])
    ensures |Gathered(payload)| == |Joined(payload)| ==> Gathered(payload) == Joined(payload)
    decreases |payload|
  {
    if |payload| == 1 {
      assert payload[..0] == [] && Gathered(payload[..0]) == [];
      BareExactly(payload[0]);
    } else if |payload| > 1 {
      var n := |payload| - 1;
      GatheredExactly(payload[..n]);
      GatheredStep(payload[..n], payload[n]);
      UnendedSplit(payload);
    }
  }

  lemma UnendedSplit(payload: seq<Bytes>)
    requires payload != []
    ensures AllUnended(payload) <==> AllUnended(payload[..|payload| - 1]) && Unended(payload[|payload| - 1])
  {
    assert payload == payload[..|payload| - 1] + [payload[|payload| - 1]];
  }

  lemma GatheredStep(before: seq<Bytes>, last: Bytes)
    requires before != [] && |Gathered(before)| <= |Joined(before)|
    requires Gathered(before) == Joined(before) <==> AllUnended(before) && (|before| <= 1 || before[0] != [])
    requires |Gathered(before)| == |Joined(before)| ==> Gathered(before) == Joined(before)
    ensures var gathered := Gathered(before) + (if Gathered(before) == [] then [] else [LF]) + Bare(last);
            var joined := Joined(before) + [LF] + last;
            && |gathered| <= |joined|
            && (gathered == joined <==> AllUnended(before) && Unended(last) && before[0] != [])
            && (|gathered| == |joined| ==> gathered == joined)
  {
    BareExactly(last);
    assert Joined(before) == [] <==> |before| == 1 && before[0] == [];
  }

  /**
   * A frame of one-line parts reads back as it was written exactly when no part ends in a carriage return
   * and the payload, if it has several lines, does not start with an empty one.
   */
  lemma RoundTripsExactly(name: Bytes, payload: seq<Bytes>)
    requires OneLine(name) && AllOneLine(payload)
    ensures Split(Print(name, payload)) == [Print(name, payload)]
    ensures Read(Print(name, payload)) == Fields(name, Joined(payload))
            <==> Unended(name) && AllUnended(payload) && (|payload| <= 1 || payload[0] != [])
  {
    PrintIsWhole(name, payload);
    SplitFirst(Print(name, payload), []);
    assert Print(name, payload) + [] == Print(name, payload) && Split([]) == [];
    ReadOfPrint(name, payload);
    GatheredExactly(payload);
    BareExactly(name);
  }

  datatype Written = Written(name: Bytes, payload: seq<Bytes>)

  predicate Clean(frame: Written) {
    OneLine(frame.name) && AllOneLine(frame.payload) && Unended(frame.name) && AllUnended(frame.payload)
    && (|frame.payload| <= 1 || frame.payload[0] != [])
  }

  function Stream(frames: seq<Written>): (blocks: seq<Bytes>)
    ensures |blocks| == |frames|
  {
    seq(|frames|, i requires 0 <= i < |frames| => Print(frames[i].name, frames[i].payload))
  }

  /** A whole list of frames, written one after another, is read back frame by frame, with nothing left over. */
  lemma StreamReadsBack(frames: seq<Written>)
    requires forall i :: 0 <= i < |frames| ==> Clean(frames[i])
    ensures Split(Flat(Stream(frames))) == Stream(frames)
    ensures forall i :: 0 <= i < |frames| ==>
            Read(Stream(frames)[i]) == Fields(frames[i].name, Joined(frames[i].payload))
  {
    forall i | 0 <= i < |frames|
      ensures Whole(Stream(frames)[i]) && Read(Stream(frames)[i]) == Fields(frames[i].name, Joined(frames[i].payload))
    {
      PrintIsWhole(frames[i].name, frames[i].payload);
      RoundTripsExactly(frames[i].name, frames[i].payload);
    }
    SplitFlat(Stream(frames), []);
    assert Flat(Stream(frames)) + [] == Flat(Stream(frames));
    assert Split([]) == [];
    assert Stream(frames) + [] == Stream(frames);
  }

  // What any frame says, whoever wrote it.

  predicate NamesIt(line: Bytes) {
    "event: " <= StripCr(line)
  }

  function DataIn(line: Bytes): seq<Bytes> {
    if "data: " <= StripCr(line) then [StripCr(line)[6..]] else []
  }

  /** What the data lines hold, in order. */
  function Payload(lines: seq<Bytes>): seq<Bytes> {
    if lines == [] then []
    else Payload(lines[..|lines| - 1]) + DataIn(lines[|lines| - 1])
  }

  /** From the first that is not empty on. */
  function FromFirst(payload: seq<Bytes>): seq<Bytes> {
    if payload == [] then [] else if payload[0] == [] then FromFirst(payload[1..]) else payload
  }

  lemma {:induction false} FromFirstMore(payload: seq<Bytes>, last: Bytes)
    ensures FromFirst(payload + [last])
            == if FromFirst(payload) != [] then FromFirst(payload) + [last] else if last == [] then [] else [last]
    ensures FromFirst(payload) != [] ==> FromFirst(payload)[0] != []
  {
    if payload == [] {
      assert payload + [last] == [last] && [last][1..] == [];
    } else {
      assert (payload + [last])[0] == payload[0] && (payload + [last])[1..] == payload[1..] + [last];
      if payload[0] == [] {
        FromFirstMore(payload[1..], last);
      }
    }
  }

  lemma JoinedMore(payload: seq<Bytes>, last: Bytes)
    ensures Joined(payload + [last]) == if payload == [] then last else Joined(payload) + [LF] + last
  {
    assert (payload + [last])[..|payload|] == payload;
  }

  lemma {:induction false} JoinedEmpty(payload: seq<Bytes>)
    requires payload != [] && payload[0] != []
    ensures Joined(payload) != []
  {
    if |payload| > 1 {
      JoinedEmpty(payload[..|payload| - 1]);
    }
  }

  lemma Prefixes(line: Bytes)
    ensures "event: " <= line ==> !("data: " <= line)
    ensures EVENT == "event: " && DATA == "data: " && |EVENT| == 7 && |DATA| == 6
  {
    assert "event: "[0] == 'e' && "data: "[0] == 'd';
  }

  /** Joining one more comes to what a data line does. */
  lemma FromFirstJoins(payload: seq<Bytes>, last: Bytes)
    ensures var before := Joined(FromFirst(payload));
            Joined(FromFirst(payload + [last])) == before + (if before == [] then [] else [LF]) + last
  {
    var kept := FromFirst(payload);
    FromFirstMore(payload, last);
    JoinedMore(kept, last);
    if kept != [] {
      JoinedEmpty(kept);
    } else {
      assert [] + [last] == [last] && [] + [] + last == last;
    }
  }

  lemma LineIs(fields: Fields, line: Bytes)
    ensures var last := StripCr(line);
            Field(fields, line).data
            == if "data: " <= last then fields.data + (if fields.data == [] then [] else [LF]) + last[6..]
               else fields.data
  {
    Prefixes(StripCr(line));
  }

  lemma JoinedAsData(payload: seq<Bytes>, fields: Fields, line: Bytes)
    requires fields.data == Joined(FromFirst(payload))
    ensures Field(fields, line).data == Joined(FromFirst(payload + DataIn(line)))
  {
    LineIs(fields, line);
    if DataIn(line) == [] {
      assert payload + [] == payload;
    } else {
      FromFirstJoins(payload, StripCr(line)[6..]);
    }
  }

  /** A frame's data is its data lines joined, but for empty ones at the start. */
  lemma {:induction false} DataIsJoined(lines: seq<Bytes>)
    ensures Collected(lines).data == Joined(FromFirst(Payload(lines)))
  {
    if lines != [] {
      var n := |lines| - 1;
      DataIsJoined(lines[..n]);
      JoinedAsData(Payload(lines[..n]), Collected(lines[..n]), lines[n]);
    }
  }

  /** Its name is what its last event line gives it, and `message` where there is none. */
  lemma {:induction false} NameIsTheLast(lines: seq<Bytes>, i: nat)
    requires i < |lines| ==> NamesIt(lines[i])
    requires forall j :: 0 <= j < |lines| && (i < |lines| ==> i < j) ==> !NamesIt(lines[j])
    ensures Collected(lines).name == if i < |lines| then StripCr(lines[i])[7..] else "message"
  {
    if lines != [] {
      var n := |lines| - 1;
      Prefixes(StripCr(lines[n]));
      if i != n {
        assert forall j :: 0 <= j < n ==> lines[..n][j] == lines[j];
        NameIsTheLast(lines[..n], i);
      }
    }
  }

  /** So any block, read, has the name of its last event line or `message`, and the data of its data lines. */
  lemma AnyFrameReads(block: Bytes, i: nat)
    requires i < |Lines(block)| ==> NamesIt(Lines(block)[i])
    requires forall j :: 0 <= j < |Lines(block)| && (i < |Lines(block)| ==> i < j) ==> !NamesIt(Lines(block)[j])
    ensures Read(block).name == if i < |Lines(block)| then StripCr(Lines(block)[i])[7..] else "message"
    ensures Read(block).data == Joined(FromFirst(Payload(Lines(block))))
  {
    NameIsTheLast(Lines(block), i);
    DataIsJoined(Lines(block));
  }
}
