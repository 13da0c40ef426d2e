/** An event stream as a caller reads it: the opening handshake, then one item per event. */
module EventStream {
  import opened Lists
  import opened Optional
  import opened Sse

  /** An event, as its payload decodes to one. */
  type Event = string

  /** How payloads decode; nothing for one this build cannot read. */
  datatype Payloads = Payloads(event: Bytes -> Option<Event>, notice: Bytes -> Option<string>)

  datatype Frame = Connected | Message(event: Event) | Heartbeat | Evicted(notice: string) | Unreadable

  const CONNECTED := "connected"
  const HEARTBEAT := "heartbeat"
  const EVICTED := "evicted"

  function Decode(payloads: Payloads, fields: Fields): Frame {
    if fields.name == CONNECTED then Connected
    else if fields.name == HEARTBEAT then Heartbeat
    else if fields.name == MESSAGE then
      var event := payloads.event(fields.data);
      if event.Some? then Message(event.value) else Unreadable
    else if fields.name == EVICTED then
      var notice := payloads.notice(fields.data);
      if notice.Some? then Evicted(notice.value) else Unreadable
    else Unreadable
  }

  /** What one read of the body comes to. */
  datatype Reading = Chunk(bytes: Bytes) | TimedOut | Broken | Ended

  datatype Error = Silent | Transport | Skew | WasEvicted(notice: string)

  datatype Item = Event(event: Event) | Failed(error: Error)

  /** The bytes that come before anything else does. */
  function Arriving(readings: seq<Reading>): Bytes {
    if readings == [] || !readings[0].Chunk? then [] else readings[0].bytes + Arriving(readings[1..])
  }

  /** What comes after them, if anything has yet. */
  function Cause(readings: seq<Reading>): Option<Reading> {
    if readings == [] then None
    else if readings[0].Chunk? then Cause(readings[1..])
    else Some(readings[0])
  }

  /** What a caller reads of some frames and what follows them. */
  function Items(payloads: Payloads, blocks: seq<Bytes>, cause: Option<Reading>): seq<Item> {
    if blocks == [] then
      match cause
      case Some(TimedOut) => [Failed(Silent)]
      case Some(Broken) => [Failed(Transport)]
      case _ => []
    else match Decode(payloads, Read(blocks[0]))
      case Message(event) => [Item.Event(event)] + Items(payloads, blocks[1..], cause)
      case Connected => Items(payloads, blocks[1..], cause)
      case Heartbeat => Items(payloads, blocks[1..], cause)
      case Evicted(notice) => [Failed(WasEvicted(notice))]
      case Unreadable => [Failed(Skew)]
  }

  /** What is yet to be read, with `buffer` in hand and `readings` to come. */
  function Remaining(payloads: Payloads, buffer: Bytes, readings: seq<Reading>): seq<Item> {
    Items(payloads, Split(buffer + Arriving(readings)), Cause(readings))
  }

  lemma RemainingAfterFrame(payloads: Payloads, block: Bytes, rest: Bytes, readings: seq<Reading>)
    requires Whole(block)
    ensures Remaining(payloads, block + rest, readings)
            == match Decode(payloads, Read(block))
               case Message(event) => [Item.Event(event)] + Remaining(payloads, rest, readings)
               case Connected => Remaining(payloads, rest, readings)
               case Heartbeat => Remaining(payloads, rest, readings)
               case Evicted(notice) => [Failed(WasEvicted(notice))]
               case Unreadable => [Failed(Skew)]
  {
    assert block + rest + Arriving(readings) == block + (rest + Arriving(readings));
    SplitFirst(block, rest + Arriving(readings));
  }

  lemma RemainingAfterChunk(payloads: Payloads, buffer: Bytes, readings: seq<Reading>)
    requires readings != [] && readings[0].Chunk?
    ensures Remaining(payloads, buffer, readings) == Remaining(payloads, buffer + readings[0].bytes, readings[1..])
  {
    assert buffer + (readings[0].bytes + Arriving(readings[1..]))
        == buffer + readings[0].bytes + Arriving(readings[1..]);
  }

  lemma RemainingAtTheEnd(payloads: Payloads, buffer: Bytes, readings: seq<Reading>)
    requires Split(buffer) == [] && (readings == [] || !readings[0].Chunk?)
    ensures Remaining(payloads, buffer, readings)
            == if readings == [] || readings[0].Ended? then []
               else [Failed(if readings[0].TimedOut? then Silent else Transport)]
  {
    assert buffer + [] == buffer;
  }

  datatype Polled = Yield(item: Item) | Finished | Waiting

  class Stream {
    const payloads: Payloads
    var frames: Frames
    /** The readings not yet taken. */
    var readings: seq<Reading>
    var done: bool

    ghost predicate Valid()
      reads this, frames
    {
      frames.Valid()
    }

    /** Everything a caller has yet to read. */
    ghost function Future(): seq<Item>
      reads this, frames
    {
      if done then [] else Remaining(payloads, frames.buffer, readings)
    }

    constructor (payloads: Payloads, frames: Frames, readings: seq<Reading>)
      requires frames.Valid()
      ensures Valid() && this.payloads == payloads && this.frames == frames && this.readings == readings && !done
    {
      this.payloads, this.frames, this.readings, done := payloads, frames, readings, false;
    }

    /** One poll: the next item, the end, or nothing yet. */
    method Next() returns (polled: Polled)
      requires Valid()
      modifies this, frames
      ensures Valid() && frames == old(frames)
      ensures polled.Yield? ==> old(Future()) == [polled.item] + Future()
      ensures !polled.Yield? ==> old(Future()) == [] == Future()
      ensures polled.Yield? && polled.item.Failed? ==> done
      ensures old(done) ==> polled.Finished?
    {
      if done {
        return Finished;
      }
      while true
        invariant Valid() && frames == old(frames) && !done
        invariant Remaining(payloads, frames.buffer, readings) == old(Future())
        decreases |readings|, |frames.buffer|
      {
        var fields := frames.Pop();
        if fields.Some? {
          ghost var block := frames.popped[|frames.popped| - 1];
          RemainingAfterFrame(payloads, block, frames.buffer, readings);
          assert fields.value == Read(block);
          match Decode(payloads, fields.value) {
            case Message(event) => return Yield(Item.Event(event));
            case Connected => continue;
            case Heartbeat => continue;
            case Evicted(notice) =>
              done := true;
              return Yield(Failed(WasEvicted(notice)));
            case Unreadable =>
              done := true;
              return Yield(Failed(Skew));
          }
        }
        if readings == [] {
          RemainingAtTheEnd(payloads, frames.buffer, readings);
          return Waiting;
        }
        if readings[0].Chunk? {
          RemainingAfterChunk(payloads, frames.buffer, readings);
          frames.Push(readings[0].bytes);
          readings := readings[1..];
          continue;
        }
        RemainingAtTheEnd(payloads, frames.buffer, readings);
        done := true;
        match readings[0] {
          case TimedOut => return Yield(Failed(Silent));
          case Broken => return Yield(Failed(Transport));
          case _ => return Finished;
        }
      }
    }
  }

  datatype Hello = Open | Refused(error: Error) | NotYet

  /** How the handshake comes out: on the first frame, or on what comes before there is one. */
  function HelloOf(payloads: Payloads, readings: seq<Reading>): Hello {
    var blocks := Split(Arriving(readings));
    if blocks != [] then
      if Decode(payloads, Read(blocks[0])) == Connected then Open else Refused(Skew)
    else match Cause(readings)
      case None => NotYet
      case Some(TimedOut) => Refused(Silent)
      case Some(Broken) => Refused(Transport)
      case Some(_) => Refused(Skew)
  }

  /**
   * The handshake. It succeeds exactly when the first frame of all that arrives is `connected`, and what
   * the caller then reads is what follows that frame, with the bytes that came along with it.
   */
  method Events(payloads: Payloads, readings: seq<Reading>) returns (hello: Hello, stream: Option<Stream>)
    ensures hello == HelloOf(payloads, readings)
    ensures hello.Open? <==> stream.Some?
    ensures stream.Some? ==>
              && fresh(stream.value) && fresh(stream.value.frames) && stream.value.Valid()
              && stream.value.Future() == Items(payloads, Split(Arriving(readings))[1..], Cause(readings))
  {
    var frames := new Frames();
    var left := readings;
    while true
      invariant fresh(frames) && frames.Valid() && frames.popped == []
      invariant frames.buffer + Arriving(left) == Arriving(readings) && Cause(left) == Cause(readings)
      decreases |left|
    {
      ghost var buffer := frames.buffer;
      var fields := frames.Pop();
      if fields.Some? {
        ghost var block := frames.popped[0];
        Regroup(block, frames.buffer, Arriving(left));
        SplitFirst(block, frames.buffer + Arriving(left));
        if Decode(payloads, fields.value) == Connected {
          var open := new Stream(payloads, frames, left);
          return Open, Some(open);
        }
        return Refused(Skew), None;
      }
      assert left == [] || !left[0].Chunk? ==> frames.buffer + [] == frames.buffer;
      if left == [] {
        return NotYet, None;
      }
      match left[0] {
        case Chunk(bytes) =>
          Regroup(frames.buffer, bytes, Arriving(left[1..]));
          frames.Push(bytes);
          left := left[1..];
        case TimedOut => return Refused(Silent), None;
        case Broken => return Refused(Transport), None;
        case Ended => return Refused(Skew), None;
      }
    }
  }

  function Chunks(pieces: seq<Bytes>): (chunks: seq<Reading>)
    ensures |chunks| == |pieces|
  {
    seq(|pieces|, i requires 0 <= i < |pieces| => Chunk(pieces[i]))
  }

  lemma {:induction false} ChunksArrive(pieces: seq<Bytes>, tail: seq<Reading>)
    ensures Arriving(Chunks(pieces) + tail) == Flat(pieces) + Arriving(tail)
    ensures Cause(Chunks(pieces) + tail) == Cause(tail)
  {
    if pieces == [] {
      assert Chunks(pieces) + tail == tail;
    } else {
      var rest := Chunks(pieces[1..]) + tail;
      ChunksArrive(pieces[1..], tail);
      OneChunk(pieces[0], rest);
      assert Chunks(pieces) + tail == [Chunk(pieces[0])] + rest;
      Regroup(pieces[0], Flat(pieces[1..]), Arriving(tail));
    }
  }

  lemma OneChunk(piece: Bytes, rest: seq<Reading>)
    ensures Arriving([Chunk(piece)] + rest) == piece + Arriving(rest) && Cause([Chunk(piece)] + rest) == Cause(rest)
  {
    assert ([Chunk(piece)] + rest)[1..] == rest;
  }

  /** However the same bytes are cut into chunks, the handshake and everything read after it are the same. */
  lemma ChunkingIsInvisible(payloads: Payloads, a: seq<Bytes>, b: seq<Bytes>, tail: seq<Reading>)
    requires Flat(a) == Flat(b)
    ensures HelloOf(payloads, Chunks(a) + tail) == HelloOf(payloads, Chunks(b) + tail)
    ensures Remaining(payloads, [], Chunks(a) + tail) == Remaining(payloads, [], Chunks(b) + tail)
  {
    ChunksArrive(a, tail);
    ChunksArrive(b, tail);
  }

  /** A frame that ends what a caller reads. */
  predicate Terminal(payloads: Payloads, block: Bytes) {
    var frame := Decode(payloads, Read(block));
    frame.Evicted? || frame.Unreadable?
  }

  /** The events of the frames before the first terminal one, in order. */
  function Messages(payloads: Payloads, blocks: seq<Bytes>): seq<Item> {
    if blocks == [] || Terminal(payloads, blocks[0]) then []
    else
      var frame := Decode(payloads, Read(blocks[0]));
      (if frame.Message? then [Item.Event(frame.event)] else []) + Messages(payloads, blocks[1..])
  }

  function FirstTerminal(payloads: Payloads, blocks: seq<Bytes>): (i: nat)
    ensures i <= |blocks|
    ensures i < |blocks| ==> Terminal(payloads, blocks[i])
    ensures forall j :: 0 <= j < i ==> !Terminal(payloads, blocks[j])
  {
    if blocks == [] || Terminal(payloads, blocks[0]) then 0 else 1 + FirstTerminal(payloads, blocks[1..])
  }

  /** What ends a reading: the first terminal frame if there is one, and otherwise how the bytes stopped. */
  function Ending(payloads: Payloads, blocks: seq<Bytes>, cause: Option<Reading>): seq<Item> {
    var i := FirstTerminal(payloads, blocks);
    if i < |blocks| then
      var frame := Decode(payloads, Read(blocks[i]));
      [Failed(if frame.Evicted? then WasEvicted(frame.notice) else Skew)]
    else match cause
      case Some(TimedOut) => [Failed(Silent)]
      case Some(Broken) => [Failed(Transport)]
      case _ => []
  }

  lemma EndingOfRest(payloads: Payloads, blocks: seq<Bytes>, cause: Option<Reading>)
    requires blocks != [] && !Terminal(payloads, blocks[0])
    ensures Ending(payloads, blocks, cause) == Ending(payloads, blocks[1..], cause)
  {
    assert FirstTerminal(payloads, blocks) == 1 + FirstTerminal(payloads, blocks[1..]);
  }

  lemma ItemsStep(payloads: Payloads, blocks: seq<Bytes>, cause: Option<Reading>)
    requires blocks != [] && !Terminal(payloads, blocks[0])
    ensures var frame := Decode(payloads, Read(blocks[0]));
            Items(payloads, blocks, cause)
              == (if frame.Message? then [Item.Event(frame.event)] else []) + Items(payloads, blocks[1..], cause)
  {}

  lemma ItemsAtTheEnd(payloads: Payloads, blocks: seq<Bytes>, cause: Option<Reading>)
    requires blocks == [] || Terminal(payloads, blocks[0])
    ensures Items(payloads, blocks, cause) == Ending(payloads, blocks, cause)
  {}

  lemma {:induction false} MessagesAreEvents(payloads: Payloads, blocks: seq<Bytes>)
    ensures forall item <- Messages(payloads, blocks) :: item.Event?
  {
    if blocks != [] && !Terminal(payloads, blocks[0]) {
      MessagesAreEvents(payloads, blocks[1..]);
    }
  }

  lemma EndingIsAnError(payloads: Payloads, blocks: seq<Bytes>, cause: Option<Reading>)
    ensures |Ending(payloads, blocks, cause)| <= 1 && forall item <- Ending(payloads, blocks, cause) :: item.Failed?
  {}

  /**
   * What a caller reads is the events before the first terminal cause, in order, then at most one error
   * and nothing more.
   */
  lemma {:induction false} ItemsAreMessagesThenAnEnding(payloads: Payloads, blocks: seq<Bytes>, cause: Option<Reading>)
    ensures Items(payloads, blocks, cause) == Messages(payloads, blocks) + Ending(payloads, blocks, cause)
    ensures forall item <- Messages(payloads, blocks) :: item.Event?
    ensures |Ending(payloads, blocks, cause)| <= 1 && forall item <- Ending(payloads, blocks, cause) :: item.Failed?
  {
    MessagesAreEvents(payloads, blocks);
    EndingIsAnError(payloads, blocks, cause);
    if blocks == [] || Terminal(payloads, blocks[0]) {
      ItemsAtTheEnd(payloads, blocks, cause);
    } else {
      ItemsAreMessagesThenAnEnding(payloads, blocks[1..], cause);
      ItemsStep(payloads, blocks, cause);
      EndingOfRest(payloads, blocks, cause);
      var frame := Decode(payloads, Read(blocks[0]));
      var first := if frame.Message? then [Item.Event(frame.event)] else [];
      Regroup(first, Messages(payloads, blocks[1..]), Ending(payloads, blocks, cause));
    }
  }

  // What is read of what was written, told by the frames' names.

  function Served(frames: seq<Written>): Bytes {
    Flat(Sse.Stream(frames))
  }

  /** A frame that is passed over or carries an event this build can read. */
  predicate Passes(payloads: Payloads, frame: Written) {
    || frame.name == "connected" || frame.name == "heartbeat"
    || (frame.name == "message" && payloads.event(Joined(frame.payload)).Some?)
  }

  /** The events of the `message` frames, in order. */
  function EventsOf(payloads: Payloads, frames: seq<Written>): seq<Item> {
    if frames == [] then []
    else
      var event := payloads.event(Joined(frames[0].payload));
      (if frames[0].name == "message" && event.Some? then [Item.Event(event.value)] else [])
      + EventsOf(payloads, frames[1..])
  }

  /** What any other frame ends a reading with: the notice of an `evicted` that can be read, and else a skew. */
  function Stop(payloads: Payloads, frame: Written): Error {
    var notice := payloads.notice(Joined(frame.payload));
    if frame.name == "evicted" && notice.Some? then WasEvicted(notice.value) else Skew
  }

  /** What a reading that nothing stopped ends with. */
  function Silence(cause: Option<Reading>): seq<Item> {
    if cause == Some(TimedOut) then [Failed(Silent)] else if cause == Some(Broken) then [Failed(Transport)] else []
  }

  function Decoded(payloads: Payloads, frame: Written): Frame {
    Decode(payloads, Fields(frame.name, Joined(frame.payload)))
  }

  lemma DecodedByName(payloads: Payloads, frame: Written)
    ensures Decoded(payloads, frame) == Connected <==> frame.name == "connected"
    ensures Decoded(payloads, frame).Evicted? || Decoded(payloads, frame).Unreadable? <==> !Passes(payloads, frame)
    ensures Decoded(payloads, frame).Message? ==>
              frame.name == "message" && payloads.event(Joined(frame.payload)) == Some(Decoded(payloads, frame).event)
    ensures Passes(payloads, frame) && frame.name == "message" ==> Decoded(payloads, frame).Message?
    ensures !Passes(payloads, frame) ==>
              Stop(payloads, frame)
              == if Decoded(payloads, frame).Evicted? then WasEvicted(Decoded(payloads, frame).notice) else Skew
  {
    assert |"connected"| == 9 && |"heartbeat"| == 9 && |"message"| == 7 && |"evicted"| == 7;
    assert "connected"[0] == 'c' && "heartbeat"[0] == 'h' && "message"[0] == 'm' && "evicted"[0] == 'e';
  }

  /** What is read of written frames, up to the first that stops the reading. */
  lemma {:induction false} ReadByName(payloads: Payloads, frames: seq<Written>, n: nat, cause: Option<Reading>)
    requires n <= |frames| && (forall i :: 0 <= i < |frames| ==> Clean(frames[i]))
    requires (forall i :: 0 <= i < n ==> Passes(payloads, frames[i])) && (n < |frames| ==> !Passes(payloads, frames[n]))
    ensures Items(payloads, Sse.Stream(frames), cause)
            == EventsOf(payloads, frames[..n])
               + if n < |frames| then [Failed(Stop(payloads, frames[n]))] else Silence(cause)
    decreases n
  {
    if n == 0 {
      ReadNoMore(payloads, frames, cause);
    } else {
      FirstReads(frames);
      ReadByName(payloads, frames[1..], n - 1, cause);
      ReadOneMore(payloads, frames, n, cause);
    }
  }

  lemma FirstReads(frames: seq<Written>)
    requires frames != [] && (forall i :: 0 <= i < |frames| ==> Clean(frames[i]))
    ensures var blocks := Sse.Stream(frames);
            && blocks != [] && blocks[1..] == Sse.Stream(frames[1..])
            && Read(blocks[0]) == Fields(frames[0].name, Joined(frames[0].payload))
  {
    StreamReadsBack(frames);
    StreamRest(frames);
  }

  lemma StreamRest(frames: seq<Written>)
    requires frames != []
    ensures Sse.Stream(frames) != [] && Sse.Stream(frames)[1..] == Sse.Stream(frames[1..])
  {}

  lemma ReadNoMore(payloads: Payloads, frames: seq<Written>, cause: Option<Reading>)
    requires forall i :: 0 <= i < |frames| ==> Clean(frames[i])
    requires frames != [] ==> !Passes(payloads, frames[0])
    ensures Items(payloads, Sse.Stream(frames), cause)
            == EventsOf(payloads, frames[..0])
               + if frames != [] then [Failed(Stop(payloads, frames[0]))] else Silence(cause)
  {
    assert frames[..0] == [];
    if frames != [] {
      FirstReads(frames);
      DecodedByName(payloads, frames[0]);
    }
  }

  lemma ReadOneMore(payloads: Payloads, frames: seq<Written>, n: nat, cause: Option<Reading>)
    requires 0 < n <= |frames| && Passes(payloads, frames[0])
    requires var blocks := Sse.Stream(frames);
             && blocks != [] && blocks[1..] == Sse.Stream(frames[1..])
             && Read(blocks[0]) == Fields(frames[0].name, Joined(frames[0].payload))
    requires var left := if n < |frames| then [Failed(Stop(payloads, frames[n]))] else Silence(cause);
             Items(payloads, Sse.Stream(frames[1..]), cause) == EventsOf(payloads, frames[1..][..n - 1]) + left
    ensures var left := if n < |frames| then [Failed(Stop(payloads, frames[n]))] else Silence(cause);
            Items(payloads, Sse.Stream(frames), cause) == EventsOf(payloads, frames[..n]) + left
  {
    DecodedByName(payloads, frames[0]);
    ItemsStep(payloads, Sse.Stream(frames), cause);
    assert frames[..n][1..] == frames[1..][..n - 1] && frames[..n][0] == frames[0];
    var event := payloads.event(Joined(frames[0].payload));
    var first := if frames[0].name == "message" && event.Some? then [Item.Event(event.value)] else [];
    Regroup(first, EventsOf(payloads, frames[1..][..n - 1]),
            if n < |frames| then [Failed(Stop(payloads, frames[n]))] else Silence(cause));
  }

  lemma ServedSplits(frames: seq<Written>)
    requires frames != [] && forall i :: 0 <= i < |frames| ==> Clean(frames[i])
    ensures Split(Served(frames)) == Sse.Stream(frames)
    ensures Read(Sse.Stream(frames)[0]) == Fields(frames[0].name, Joined(frames[0].payload))
  {
    StreamReadsBack(frames);
  }

  /** The handshake succeeds exactly when the first frame served is named `connected`, and is a skew otherwise. */
  lemma HelloByName(payloads: Payloads, frames: seq<Written>, readings: seq<Reading>)
    requires frames != [] && (forall i :: 0 <= i < |frames| ==> Clean(frames[i]))
    requires Arriving(readings) == Served(frames)
    ensures HelloOf(payloads, readings) == if frames[0].name == "connected" then Open else Refused(Skew)
  {
    ServedSplits(frames);
    DecodedByName(payloads, frames[0]);
  }

  /**
   * End to end: whatever the cut, after the hello a client reads the events of the `message` frames in order, up
   * to the first frame that is neither one it can read nor a hello nor a heartbeat. It reads that one as the
   * error it means, and where there is none, it reads how the bytes stopped.
   */
  lemma ServedIsRead(payloads: Payloads, frames: seq<Written>, n: nat, readings: seq<Reading>)
    requires 1 <= n <= |frames| && (forall i :: 0 <= i < |frames| ==> Clean(frames[i]))
    requires Arriving(readings) == Served(frames) && frames[0].name == "connected"
    requires (forall i :: 1 <= i < n ==> Passes(payloads, frames[i])) && (n < |frames| ==> !Passes(payloads, frames[n]))
    ensures HelloOf(payloads, readings) == Open
    ensures Items(payloads, Split(Arriving(readings))[1..], Cause(readings))
            == EventsOf(payloads, frames[1..n])
               + if n < |frames| then [Failed(Stop(payloads, frames[n]))] else Silence(Cause(readings))
  {
    HelloByName(payloads, frames, readings);
    ServedSplits(frames);
    ReadAfterHello(payloads, frames, n, Cause(readings));
  }

  lemma ReadAfterHello(payloads: Payloads, frames: seq<Written>, n: nat, cause: Option<Reading>)
    requires 1 <= n <= |frames| && (forall i :: 0 <= i < |frames| ==> Clean(frames[i]))
    requires (forall i :: 1 <= i < n ==> Passes(payloads, frames[i])) && (n < |frames| ==> !Passes(payloads, frames[n]))
    ensures Items(payloads, Sse.Stream(frames)[1..], cause)
            == EventsOf(payloads, frames[1..n])
               + if n < |frames| then [Failed(Stop(payloads, frames[n]))] else Silence(cause)
  {
    var rest := frames[1..];
    AfterTheFirst(payloads, frames, n);
    FirstReads(frames);
    ReadByName(payloads, rest, n - 1, cause);
  }

  lemma AfterTheFirst(payloads: Payloads, frames: seq<Written>, n: nat)
    requires 1 <= n <= |frames| && (forall i :: 0 <= i < |frames| ==> Clean(frames[i]))
    requires (forall i :: 1 <= i < n ==> Passes(payloads, frames[i])) && (n < |frames| ==> !Passes(payloads, frames[n]))
    ensures var rest := frames[1..];
            && |rest| == |frames| - 1 && rest[..n - 1] == frames[1..n] && (n < |frames| ==> rest[n - 1] == frames[n])
            && (forall i :: 0 <= i < |rest| ==> Clean(rest[i]))
            && (forall i :: 0 <= i < n - 1 ==> Passes(payloads, rest[i]))
  {
    var rest := frames[1..];
    assert forall i :: 0 <= i < |rest| ==> rest[i] == frames[i + 1];
  }
}
