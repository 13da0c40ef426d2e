/** The account `ganja run` writes of a turn: parts that stream, and the moments they are written. */
module Reporting {
  import opened Lists
  import opened Optional
  import opened Tokens

  datatype Format = Default | Json

  datatype Kind = Text | Reasoning | StepStart | StepFinish | ToolUse | Error

  datatype ToolState = Running | Completed(title: string) | Failed(error: string)

  datatype Body =
    | TextBody(text: string)
    | ReasoningBody(text: string)
    | StepStartBody
    | StepFinishBody
    | ServerToolBody(tool: string)
    | ToolBody(tool: string, state: ToolState)
    | OtherBody

  datatype Part = Part(id: string, body: Body)

  datatype Event =
    | MessageStarted(assistant: bool, model: string)
    | PartStarted(part: Part)
    | PartDelta(id: string, delta: string)
    | PartUpdated(part: Part)
    | MessageFinished(failed: bool, error: Option<string>)
    | Unrendered

  /** A line written: an object of the machine-readable format, or a line of the readable one. */
  datatype Line =
    | Emitted(kind: Kind, part: Part)
    | EmittedError(error: string)
    | Header(agent: Option<string>, model: string, effort: Option<string>)
    | Answer(text: string)
    | Ran(what: string)
    | CallFailed(tool: string)

  datatype OpenPart = OpenPart(id: string, text: string, kind: Kind)

  datatype Setting = Setting(format: Format, agent: Option<string>, effort: Option<string>)

  datatype State = State(out: seq<Line>, err: seq<string>, announced: bool, open: seq<OpenPart>,
                         failure: Option<string>)

  const FRESH := State([], [], false, [], None)

  const TURN_FAILED := "the turn failed"

  function BodyOf(part: OpenPart): Body {
    if part.kind == Reasoning then ReasoningBody(part.text) else TextBody(part.text)
  }

  /** The lines one streamed part is written as. */
  function Written(format: Format, part: OpenPart): seq<Line> {
    if format.Json? then [Emitted(part.kind, Part(part.id, BodyOf(part)))]
    else if part.kind == Reasoning || Trim(part.text) == [] then []
    else [Answer(Trim(part.text))]
  }

  function AllWritten(format: Format, open: seq<OpenPart>): seq<Line> {
    if open == [] then []
    else AllWritten(format, open[..|open| - 1]) + Written(format, open[|open| - 1])
  }

  function Emit(format: Format, kind: Kind, part: Part): seq<Line> {
    if format.Json? then [Emitted(kind, part)] else []
  }

  function Readable(format: Format, line: Line): seq<Line> {
    if format.Json? then [] else [line]
  }

  function Described(title: string, tool: string): string {
    if Trim(title) == [] then tool else title
  }

  /** Where the first open part of an id is; the number of open parts when there is none. */
  function OpenAt(open: seq<OpenPart>, id: string): (i: nat)
    ensures i <= |open|
    ensures i < |open| ==> open[i].id == id
    ensures forall j :: 0 <= j < i ==> open[j].id != id
  {
    FirstWhere(open, (part: OpenPart) => part.id == id)
  }

  function Failing(failure: Option<string>, error: string): string {
    if failure.Some? then failure.value + "\n" + error else error
  }

  class Reporter {
    const setting: Setting
    var out: seq<Line>
    var err: seq<string>
    var announced: bool
    /** Parts still streaming, in the order they opened. */
    var open: seq<OpenPart>
    var failure: Option<string>

    function Now(): State
      reads this
    {
      State(out, err, announced, open, failure)
    }

    constructor (setting: Setting)
      ensures this.setting == setting && Now() == FRESH
    {
      this.setting := setting;
      out, err, announced, open, failure := [], [], false, [], None;
    }

    /** Writes every part that has finished streaming. */
    method Flush()
      modifies this
      ensures Now() == old(Now()).(out := old(out) + AllWritten(setting.format, old(open)), open := [])
    {
      var taken := open;
      open := [];
      for n := 0 to |taken|
        invariant Now() == old(Now()).(out := old(out) + AllWritten(setting.format, taken[..n]), open := [])
      {
        assert taken[..n + 1][..n] == taken[..n];
        var part := taken[n];
        Regroup(old(out), AllWritten(setting.format, taken[..n]), Written(setting.format, part));
        assert AllWritten(setting.format, taken[..n]) + [] == AllWritten(setting.format, taken[..n]);
        if setting.format.Json? {
          out := out + [Emitted(part.kind, Part(part.id, BodyOf(part)))];
          continue;
        }
        if part.kind == Reasoning {
          continue;
        }
        var trimmed := Trim(part.text);
        if trimmed == [] {
          continue;
        }
        out := out + [Answer(trimmed)];
      }
      assert taken[..|taken|] == taken;
    }

    method Announce(assistant: bool, model: string)
      modifies this
      ensures Now() == Announced(setting, old(Now()), assistant, model)
    {
      if setting.format.Json? || announced || !assistant {
        return;
      }
      announced := true;
      out := out + [Header(setting.agent, model, setting.effort)];
    }

    /** A tool call that has stopped running; one that has not is still going to change. */
    method Updated(part: Part)
      modifies this
      ensures Now()
              == old(Now()).(out := old(out) + CallLines(setting.format, part),
                             err := old(err) + CallErrors(setting.format, part))
    {
      if !part.body.ToolBody? {
        return;
      }
      match part.body.state {
        case Running =>
        case Completed(title) =>
          out := out + Emit(setting.format, ToolUse, part);
          out := out + Readable(setting.format, Ran(Described(title, part.body.tool)));
        case Failed(error) =>
          out := out + Emit(setting.format, ToolUse, part);
          if !setting.format.Json? {
            out := out + [CallFailed(part.body.tool)];
            err := err + [error];
          }
      }
    }

    method Fail(error: string)
      modifies this
      ensures Now() == old(Now()).(out := old(out) + (if setting.format.Json? then [EmittedError(error)] else []),
                                   failure := Some(Failing(old(failure), error)))
    {
      if setting.format.Json? {
        out := out + [EmittedError(error)];
      }
      failure := Some(Failing(failure, error));
    }

    /** A part that starts: opened, written at once, or written after all that is open. */
    method Start(part: Part)
      modifies this
      ensures Now() == After(setting, old(Now()), PartStarted(part))
    {
      match part.body {
        case TextBody(text) => open := open + [OpenPart(part.id, text, Text)];
        case ReasoningBody(text) => open := open + [OpenPart(part.id, text, Reasoning)];
        case StepStartBody => out := out + Emit(setting.format, StepStart, part);
        case StepFinishBody =>
          Flush();
          out := out + Emit(setting.format, StepFinish, part);
        case ServerToolBody(tool) =>
          Flush();
          out := out + Emit(setting.format, ToolUse, part);
          out := out + Readable(setting.format, Ran(tool));
        case _ =>
      }
    }

    /** Applies one event; whether the turn is over. */
    method Apply(event: Event) returns (over: bool)
      modifies this
      ensures Now() == After(setting, old(Now()), event) && over == event.MessageFinished?
    {
      match event {
        case MessageStarted(assistant, model) => Announce(assistant, model);
        case PartStarted(part) =>
          Start(part);
        case PartDelta(id, delta) =>
          var at := OpenAt(open, id);
          if at < |open| {
            open := open[at := open[at].(text := open[at].text + delta)];
          }
        case PartUpdated(part) => Updated(part);
        case MessageFinished(failed, error) =>
          Flush();
          if failed {
            Fail(if error.Some? then error.value else TURN_FAILED);
          }
          return true;
        case Unrendered =>
      }
      return false;
    }

    method Finish() returns (failed: Option<string>)
      modifies this
      ensures Now() == old(Now()).(out := old(out) + AllWritten(setting.format, old(open)), open := [])
      ensures failed == old(failure)
    {
      Flush();
      return failure;
    }
  }

  /** A turn's account, from its events to the last line. */
  method Account(setting: Setting, events: seq<Event>) returns (reporter: Reporter, failed: Option<string>)
    ensures fresh(reporter)
    ensures reporter.Now() == Finished(setting, Heard(setting, FRESH, events)) && failed == reporter.failure
  {
    reporter := new Reporter(setting);
    var n := 0;
    while n < |events|
      invariant n <= |events| && reporter.setting == setting
      invariant Heard(setting, FRESH, events) == Heard(setting, reporter.Now(), events[n..])
      decreases |events| - n
    {
      assert events[n..][0] == events[n] && events[n..][1..] == events[n + 1..];
      var over := reporter.Apply(events[n]);
      if over {
        failed := reporter.Finish();
        return;
      }
      n := n + 1;
    }
    failed := reporter.Finish();
  }

  // The same, as functions of the state.

  function Announced(setting: Setting, state: State, assistant: bool, model: string): State {
    if setting.format.Json? || state.announced || !assistant then state
    else state.(announced := true, out := state.out + [Header(setting.agent, model, setting.effort)])
  }

  function CallLines(format: Format, part: Part): seq<Line> {
    if !part.body.ToolBody? || part.body.state.Running? then []
    else Emit(format, ToolUse, part)
         + Readable(format,
                    if part.body.state.Completed? then Ran(Described(part.body.state.title, part.body.tool))
                    else CallFailed(part.body.tool))
  }

  function CallErrors(format: Format, part: Part): seq<string> {
    if !format.Json? && part.body.ToolBody? && part.body.state.Failed? then [part.body.state.error] else []
  }

  /** The line or lines a closing event writes of itself, after the parts it closes. */
  function ClosingLines(format: Format, event: Event): seq<Line> {
    match event
    case PartStarted(Part(id, StepFinishBody)) => Emit(format, StepFinish, event.part)
    case PartStarted(Part(id, ServerToolBody(tool))) => Emit(format, ToolUse, event.part) + Readable(format, Ran(tool))
    case MessageFinished(true, error) =>
      if format.Json? then [EmittedError(if error.Some? then error.value else TURN_FAILED)] else []
    case _ => []
  }

  predicate Closes(event: Event) {
    || event.MessageFinished?
    || (event.PartStarted? && (event.part.body.StepFinishBody? || event.part.body.ServerToolBody?))
  }

  predicate Opens(event: Event) {
    event.PartStarted? && (event.part.body.TextBody? || event.part.body.ReasoningBody?)
  }

  function Opening(event: Event): OpenPart
    requires Opens(event)
  {
    OpenPart(event.part.id, event.part.body.text, if event.part.body.TextBody? then Text else Reasoning)
  }

  function Grow(open: seq<OpenPart>, event: Event): seq<OpenPart> {
    if Opens(event) then open + [Opening(event)]
    else if event.PartDelta? && OpenAt(open, event.id) < |open| then
      var at := OpenAt(open, event.id);
      open[at := open[at].(text := open[at].text + event.delta)]
    else open
  }

  /** What an event that closes nothing writes at once, beside the header. */
  function AtOnce(format: Format, event: Event): seq<Line> {
    match event
    case PartStarted(Part(id, StepStartBody)) => Emit(format, StepStart, event.part)
    case PartUpdated(part) => CallLines(format, part)
    case _ => []
  }

  function After(setting: Setting, state: State, event: Event): State {
    if Closes(event) then
      state.(out := state.out + AllWritten(setting.format, state.open) + ClosingLines(setting.format, event),
             open := [],
             failure := if event.MessageFinished? && event.failed
                        then Some(Failing(state.failure, if event.error.Some? then event.error.value else TURN_FAILED))
                        else state.failure)
    else if event.MessageStarted? then Announced(setting, state, event.assistant, event.model)
    else
      state.(out := state.out + AtOnce(setting.format, event), open := Grow(state.open, event),
             err := if event.PartUpdated? then state.err + CallErrors(setting.format, event.part) else state.err)
  }

  /** Every event up to the one that ends the turn. */
  function Heard(setting: Setting, state: State, events: seq<Event>): State
    decreases |events|
  {
    if events == [] then state
    else if events[0].MessageFinished? then After(setting, state, events[0])
    else Heard(setting, After(setting, state, events[0]), events[1..])
  }

  function Finished(setting: Setting, state: State): State {
    state.(out := state.out + AllWritten(setting.format, state.open), open := [])
  }

  // What the machine-readable account of a turn holds.

  /** The deltas addressed to an id before the next close. */
  function Deltas(events: seq<Event>, id: string): string {
    if events == [] || Closes(events[0]) then []
    else (if events[0].PartDelta? && events[0].id == id then events[0].delta else []) + Deltas(events[1..], id)
  }

  function Ids(open: seq<OpenPart>): (ids: seq<string>)
    ensures |ids| == |open|
  {
    seq(|open|, i requires 0 <= i < |open| => open[i].id)
  }

  /** The parts opened before the next close, as they stand at it. A delta goes to the first open part of its id. */
  function Opened(ids: seq<string>, events: seq<Event>): seq<OpenPart>
    decreases |events|
  {
    if events == [] || Closes(events[0]) then []
    else if Opens(events[0]) then
      var part := Opening(events[0]);
      var more := if part.id in ids then [] else Deltas(events[1..], part.id);
      [part.(text := part.text + more)] + Opened(ids + [part.id], events[1..])
    else Opened(ids, events[1..])
  }

  /** The parts already open, as they stand at the next close. */
  function Standing(open: seq<OpenPart>, events: seq<Event>): (r: seq<OpenPart>)
    ensures |r| == |open|
  {
    seq(|open|, i requires 0 <= i < |open| =>
      open[i].(text := open[i].text + if OpenAt(open, open[i].id) == i then Deltas(events, open[i].id) else []))
  }

  function Grown(open: seq<OpenPart>, events: seq<Event>): seq<OpenPart>
    decreases |events|
  {
    if events == [] || Closes(events[0]) then open else Grown(Grow(open, events[0]), events[1..])
  }

  lemma OpenAtMore(open: seq<OpenPart>, part: OpenPart, id: string)
    ensures OpenAt(open + [part], id)
            == if OpenAt(open, id) < |open| then OpenAt(open, id) else if part.id == id then |open| else |open| + 1
  {
    var more := open + [part];
    var i, j := OpenAt(open, id), OpenAt(more, id);
    assert forall k :: 0 <= k < |open| ==> more[k] == open[k];
    assert more[|open|] == part;
    if i < |open| {
      assert j == i;
    } else if part.id == id {
      assert j == |open|;
    } else {
      assert j == |more|;
    }
  }

  lemma OpenAtIds(open: seq<OpenPart>, id: string)
    ensures OpenAt(open, id) < |open| <==> id in Ids(open)
  {
    var i := OpenAt(open, id);
    if i < |open| {
      assert Ids(open)[i] == id;
    }
  }

  lemma StandingWhenOpened(open: seq<OpenPart>, part: OpenPart, events: seq<Event>)
    ensures Standing(open + [part], events)
            == Standing(open, events)
               + [part.(text := part.text + if part.id in Ids(open) then [] else Deltas(events, part.id))]
  {
    var more := open + [part];
    OpenAtIds(open, part.id);
    OpenAtMore(open, part, part.id);
    forall i | 0 <= i < |open| ensures Standing(more, events)[i] == Standing(open, events)[i] {
      OpenAtMore(open, part, open[i].id);
      assert more[i] == open[i];
    }
    assert more[|open|] == part;
  }

  lemma StandingWhenGrown(open: seq<OpenPart>, event: Event, rest: seq<Event>)
    requires !Closes(event) && !Opens(event)
    ensures Standing(Grow(open, event), rest) == Standing(open, [event] + rest) && Ids(Grow(open, event)) == Ids(open)
  {
    var after, all := Grow(open, event), [event] + rest;
    assert all[0] == event && all[1..] == rest;
    assert |after| == |open| && forall i :: 0 <= i < |open| ==> after[i].id == open[i].id;
    forall i | 0 <= i < |open| ensures Standing(after, rest)[i] == Standing(open, all)[i] {
      SameIdsSamePlace(open, after, open[i].id);
      OneStanding(open, event, rest, i);
    }
  }

  lemma OneStanding(open: seq<OpenPart>, event: Event, rest: seq<Event>, i: nat)
    requires i < |open| && !Closes(event) && !Opens(event)
    ensures var after, id := Grow(open, event), open[i].id;
            && |after| == |open| && after[i].id == id && after[i].kind == open[i].kind
            && after[i].text + (if OpenAt(open, id) == i then Deltas(rest, id) else [])
               == open[i].text + (if OpenAt(open, id) == i then Deltas([event] + rest, id) else [])
  {
    var all, id := [event] + rest, open[i].id;
    assert all[0] == event && all[1..] == rest;
    if event.PartDelta? && event.id == id && OpenAt(open, id) == i {
      assert open[i].text + event.delta + Deltas(rest, id) == open[i].text + (event.delta + Deltas(rest, id));
    } else {
      assert OpenAt(open, id) == i ==> Deltas(all, id) == [] + Deltas(rest, id) == Deltas(rest, id);
    }
  }

  lemma SameIdsSamePlace(a: seq<OpenPart>, b: seq<OpenPart>, id: string)
    requires |a| == |b| && forall i :: 0 <= i < |a| ==> a[i].id == b[i].id
    ensures OpenAt(a, id) == OpenAt(b, id)
  {
    var i, j := OpenAt(a, id), OpenAt(b, id);
    assert i < |a| ==> b[i].id == id;
    assert j < |b| ==> a[j].id == id;
  }

  /** What is open at the next close: the parts that were, then those opened since, each with the deltas it was sent. */
  lemma {:induction false} OpenAtTheClose(open: seq<OpenPart>, events: seq<Event>)
    ensures Grown(open, events) == Standing(open, events) + Opened(Ids(open), events)
    decreases |events|
  {
    if events == [] || Closes(events[0]) {
      forall i | 0 <= i < |open| ensures Standing(open, events)[i] == open[i] {
        assert open[i].text + [] == open[i].text;
      }
    } else {
      var event, rest := events[0], events[1..];
      assert events == [event] + rest;
      OpenAtTheClose(Grow(open, event), rest);
      if Opens(event) {
        var part := Opening(event);
        StandingWhenOpened(open, part, rest);
        assert Ids(open + [part]) == Ids(open) + [part.id];
        StandingUnmoved(open, event, rest);
        var now := part.(text := part.text + if part.id in Ids(open) then [] else Deltas(rest, part.id));
        assert Opened(Ids(open), events) == [now] + Opened(Ids(open) + [part.id], rest);
        Regroup(Standing(open, rest), [now], Opened(Ids(open) + [part.id], rest));
      } else {
        StandingWhenGrown(open, event, rest);
      }
    }
  }

  lemma StandingUnmoved(open: seq<OpenPart>, event: Event, rest: seq<Event>)
    requires Opens(event)
    ensures Standing(open, [event] + rest) == Standing(open, rest)
  {
    assert ([event] + rest)[1..] == rest;
    forall i | 0 <= i < |open| ensures Deltas([event] + rest, open[i].id) == Deltas(rest, open[i].id) {
      assert [] + Deltas(rest, open[i].id) == Deltas(rest, open[i].id);
    }
  }

  /** What is written at once before the next close. */
  function Immediate(events: seq<Event>): seq<Line> {
    if events == [] || Closes(events[0]) then [] else AtOnce(Json, events[0]) + Immediate(events[1..])
  }

  function FromClose(events: seq<Event>): seq<Event> {
    if events == [] || Closes(events[0]) then events else FromClose(events[1..])
  }

  lemma FromCloseShorter(events: seq<Event>)
    ensures |FromClose(events)| <= |events|
    ensures FromClose(events) == [] || Closes(FromClose(events)[0])
  {}

  /**
   * The whole account: between closes, what is written at once; then every part opened since the last
   * close, in the order opened, whole; then the line that closes them.
   */
  function Told(events: seq<Event>): seq<Line>
    decreases |events|, 1
  {
    FromCloseShorter(events);
    Immediate(events) + AllWritten(Json, Opened([], events)) + ToldFrom(FromClose(events))
  }

  /** What is written from a close on: its own line, and all after it unless it ends the turn. */
  function ToldFrom(events: seq<Event>): seq<Line>
    decreases |events|, 0
  {
    if events == [] then []
    else ClosingLines(Json, events[0]) + if events[0].MessageFinished? then [] else Told(events[1..])
  }

  /** A state with more written and these parts open. */
  function Became(state: State, lines: seq<Line>, open: seq<OpenPart>): State {
    state.(out := state.out + lines, open := open)
  }

  lemma BecameTwice(state: State, a: seq<Line>, first: seq<OpenPart>, b: seq<Line>, second: seq<OpenPart>)
    ensures Became(Became(state, a, first), b, second) == Became(state, a + b, second)
  {
    assert state.out + a + b == state.out + (a + b);
  }

  lemma AfterInSegment(setting: Setting, state: State, event: Event)
    requires setting.format.Json? && !Closes(event)
    ensures After(setting, state, event) == Became(state, AtOnce(Json, event), Grow(state.open, event))
  {
    assert state.err + [] == state.err && state.out + [] == state.out;
  }

  lemma {:induction false} ToTheClose(setting: Setting, state: State, events: seq<Event>)
    requires setting.format.Json?
    ensures Heard(setting, state, events)
            == Heard(setting, Became(state, Immediate(events), Grown(state.open, events)), FromClose(events))
    decreases |events|
  {
    if events == [] || Closes(events[0]) {
      assert state.out + [] == state.out;
    } else {
      var event, rest := events[0], events[1..];
      var open := Grow(state.open, event);
      var next := Became(state, AtOnce(Json, event), open);
      AfterInSegment(setting, state, event);
      ToTheClose(setting, next, rest);
      BecameTwice(state, AtOnce(Json, event), open, Immediate(rest), Grown(open, rest));
    }
  }

  lemma AfterClose(setting: Setting, state: State, event: Event)
    requires setting.format.Json? && Closes(event)
    ensures After(setting, state, event).out == state.out + AllWritten(Json, state.open) + ClosingLines(Json, event)
    ensures After(setting, state, event).open == []
  {}

  /** The reporter's account of any events is the one told above, and it leaves nothing open. */
  lemma {:induction false} AccountIsTold(setting: Setting, state: State, events: seq<Event>)
    requires setting.format.Json? && state.open == []
    ensures Finished(setting, Heard(setting, state, events)).out == state.out + Told(events)
    ensures Finished(setting, Heard(setting, state, events)).open == []
    decreases |events|, 1
  {
    var now, open := Immediate(events), Opened([], events);
    FromCloseShorter(events);
    ToTheClose(setting, state, events);
    OpenAtTheClose([], events);
    assert Standing([], events) + Opened(Ids([]), events) == open;
    AccountFrom(setting, Became(state, now, open), FromClose(events));
    Regroup(state.out, now, AllWritten(Json, open));
    Regroup(state.out, now + AllWritten(Json, open), ToldFrom(FromClose(events)));
  }

  lemma {:induction false} AccountFrom(setting: Setting, state: State, events: seq<Event>)
    requires setting.format.Json? && (events == [] || Closes(events[0]))
    ensures Finished(setting, Heard(setting, state, events)).out
            == state.out + AllWritten(Json, state.open) + ToldFrom(events)
    decreases |events|, 0
  {
    var written := AllWritten(Json, state.open);
    if events != [] {
      var next := After(setting, state, events[0]);
      AfterClose(setting, state, events[0]);
      if !events[0].MessageFinished? {
        AccountIsTold(setting, next, events[1..]);
        Regroup(state.out + written, ClosingLines(Json, events[0]), Told(events[1..]));
      }
    }
  }

  // Each part once.

  /** The ids of the streamed parts a list of lines writes. */
  function StreamedOf(line: Line): seq<string> {
    if line.Emitted? && (line.kind == Text || line.kind == Reasoning) then [line.part.id] else []
  }

  function Streamed(lines: seq<Line>): seq<string> {
    if lines == [] then [] else StreamedOf(lines[0]) + Streamed(lines[1..])
  }

  /** The ids opened, up to the event that ends the turn. */
  function OpenedIds(events: seq<Event>): seq<string> {
    if events == [] || events[0].MessageFinished? then []
    else (if Opens(events[0]) then [events[0].part.id] else []) + OpenedIds(events[1..])
  }

  lemma {:induction false} StreamedAppend(a: seq<Line>, b: seq<Line>)
    ensures Streamed(a + b) == Streamed(a) + Streamed(b)
  {
    if a == [] {
      assert a + b == b;
    } else {
      StreamedAppend(a[1..], b);
      assert (a + b)[1..] == a[1..] + b && (a + b)[0] == a[0];
      Regroup(StreamedOf(a[0]), Streamed(a[1..]), Streamed(b));
    }
  }

  lemma {:induction false} StreamedWritten(open: seq<OpenPart>)
    requires forall part <- open :: part.kind == Text || part.kind == Reasoning
    ensures Streamed(AllWritten(Json, open)) == Ids(open)
  {
    if open != [] {
      var n := |open| - 1;
      StreamedWritten(open[..n]);
      assert AllWritten(Json, open) == AllWritten(Json, open[..n]) + Written(Json, open[n]);
      StreamedAppend(AllWritten(Json, open[..n]), Written(Json, open[n]));
      var line := Written(Json, open[n]);
      assert line[1..] == [] && Streamed(line) == [open[n].id];
      assert Ids(open) == Ids(open[..n]) + [open[n].id];
    }
  }

  function SegmentIds(events: seq<Event>): seq<string> {
    if events == [] || Closes(events[0]) then []
    else (if Opens(events[0]) then [events[0].part.id] else []) + SegmentIds(events[1..])
  }

  lemma IdsOfFirst(open: seq<OpenPart>)
    requires open != []
    ensures Ids(open) == [open[0].id] + Ids(open[1..])
  {}

  lemma {:induction false} OpenedAreTheSegment(ids: seq<string>, events: seq<Event>)
    ensures Ids(Opened(ids, events)) == SegmentIds(events)
    ensures forall part <- Opened(ids, events) :: part.kind == Text || part.kind == Reasoning
    decreases |events|
  {
    if events != [] && !Closes(events[0]) {
      if Opens(events[0]) {
        var rest := Opened(ids + [Opening(events[0]).id], events[1..]);
        OpenedAreTheSegment(ids + [Opening(events[0]).id], events[1..]);
        assert Opened(ids, events)[1..] == rest && Opened(ids, events)[0].id == events[0].part.id;
        IdsOfFirst(Opened(ids, events));
      } else {
        OpenedAreTheSegment(ids, events[1..]);
      }
    }
  }

  lemma {:induction false} NothingStreamedAtOnce(events: seq<Event>)
    ensures Streamed(Immediate(events)) == []
  {
    if events != [] && !Closes(events[0]) {
      NothingStreamedAtOnce(events[1..]);
      StreamedAppend(AtOnce(Json, events[0]), Immediate(events[1..]));
      assert Streamed([]) == [];
      var line := AtOnce(Json, events[0]);
      assert |line| <= 1;
      assert line != [] ==> line[1..] == [];
    }
  }

  lemma {:induction false} SegmentThenRest(events: seq<Event>)
    ensures OpenedIds(events) == SegmentIds(events) + OpenedIds(FromClose(events))
  {
    if events != [] && !Closes(events[0]) {
      SegmentThenRest(events[1..]);
    }
  }

  /** Every part opened is written exactly once, and in the order opened. */
  lemma {:induction false} EachPartOnce(events: seq<Event>)
    ensures Streamed(Told(events)) == OpenedIds(events)
    decreases |events|, 1
  {
    FromCloseShorter(events);
    NothingStreamedAtOnce(events);
    OpenedAreTheSegment([], events);
    StreamedWritten(Opened([], events));
    SegmentThenRest(events);
    EachPartOnceFrom(FromClose(events));
    StreamedThrice(Immediate(events), AllWritten(Json, Opened([], events)), ToldFrom(FromClose(events)));
    assert [] + SegmentIds(events) == SegmentIds(events);
  }

  lemma StreamedThrice(a: seq<Line>, b: seq<Line>, c: seq<Line>)
    ensures Streamed(a + b + c) == Streamed(a) + Streamed(b) + Streamed(c)
  {
    StreamedAppend(a, b);
    StreamedAppend(a + b, c);
  }

  lemma {:induction false} EachPartOnceFrom(events: seq<Event>)
    requires events == [] || Closes(events[0])
    ensures Streamed(ToldFrom(events)) == OpenedIds(events)
    decreases |events|, 0
  {
    if events != [] {
      NothingStreamedClosing(events[0]);
      if events[0].MessageFinished? {
        StreamedAppend(ClosingLines(Json, events[0]), []);
      } else {
        StreamedAppend(ClosingLines(Json, events[0]), Told(events[1..]));
        EachPartOnce(events[1..]);
      }
    }
  }

  lemma NothingStreamedClosing(event: Event)
    ensures Streamed(ClosingLines(Json, event)) == []
  {
    var closing := ClosingLines(Json, event);
    assert |closing| <= 1;
    assert closing != [] ==> closing[1..] == [];
  }

  predicate Repeats(ids: seq<string>) {
    exists i, j :: 0 <= i < j < |ids| && ids[i] == ids[j]
  }

  lemma NotBefore(ids: seq<string>, id: string, rest: seq<string>)
    requires !Repeats(ids + [id] + rest)
    ensures id !in ids
  {
    var all := ids + [id] + rest;
    forall i | 0 <= i < |ids| ensures ids[i] != id {
      assert all[i] == ids[i] && all[|ids|] == id;
    }
  }

  /**
   * Where the ids opened before a close are distinct, each part holds its own start and exactly the deltas it
   * was sent.
   */
  lemma {:induction false} OpenedHoldTheirDeltas(ids: seq<string>, events: seq<Event>, n: nat)
    requires n < |events| && Opens(events[n]) && (forall i :: 0 <= i < n ==> !Closes(events[i]))
    requires !Repeats(ids + SegmentIds(events))
    ensures Opening(events[n]).(text := Opening(events[n]).text + Deltas(events[n + 1..], events[n].part.id))
            in Opened(ids, events)
    decreases |events|
  {
    var event, rest := events[0], events[1..];
    if Opens(event) {
      var id := event.part.id;
      assert ids + SegmentIds(events) == ids + [id] + SegmentIds(rest);
      NotBefore(ids, id, SegmentIds(rest));
      if n > 0 {
        OpenedHoldTheirDeltas(ids + [id], rest, n - 1);
        assert rest[n - 1] == events[n] && rest[n..] == events[n + 1..];
      }
    } else {
      assert ids + SegmentIds(events) == ids + SegmentIds(rest) by {
        assert [] + SegmentIds(rest) == SegmentIds(rest);
      }
      OpenedHoldTheirDeltas(ids, rest, n - 1);
      assert rest[n - 1] == events[n] && rest[n..] == events[n + 1..];
    }
  }
}
