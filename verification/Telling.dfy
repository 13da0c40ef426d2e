/**
 * What a turn's account says, line by line, told of the events alone: in the readable format the answers, the
 * calls and the header; in the machine-readable one every part as it stood when its step closed, and the marks.
 */
module Telling {
  import opened Lists
  import opened Optional
  import opened Tokens
  import opened Reporting

  // The lines of a kind.

  function Only(lines: seq<Line>, keep: Line -> bool): seq<Line> {
    if lines == [] then [] else (if keep(lines[0]) then [lines[0]] else []) + Only(lines[1..], keep)
  }

  predicate IsAnswer(line: Line) {
    line.Answer?
  }

  predicate IsCall(line: Line) {
    line.Ran? || line.CallFailed?
  }

  predicate IsHeader(line: Line) {
    line.Header?
  }

  predicate IsPart(line: Line) {
    line.Emitted? && (line.kind == Text || line.kind == Reasoning)
  }

  predicate IsMark(line: Line) {
    line.EmittedError? || (line.Emitted? && line.kind != Text && line.kind != Reasoning)
  }

  lemma {:induction false} OnlyAppend(a: seq<Line>, b: seq<Line>, keep: Line -> bool)
    ensures Only(a + b, keep) == Only(a, keep) + Only(b, keep)
  {
    if a == [] {
      assert a + b == b && Only(a, keep) + Only(b, keep) == Only(b, keep);
    } else {
      OnlyAppend(a[1..], b, keep);
      assert (a + b)[1..] == a[1..] + b && (a + b)[0] == a[0];
      Regroup(if keep(a[0]) then [a[0]] else [], Only(a[1..], keep), Only(b, keep));
    }
  }

  lemma {:induction false} OnlyAll(lines: seq<Line>, keep: Line -> bool)
    requires forall i :: 0 <= i < |lines| ==> keep(lines[i])
    ensures Only(lines, keep) == lines
  {
    if lines != [] {
      OnlyAll(lines[1..], keep);
      assert lines == [lines[0]] + lines[1..];
    }
  }

  lemma {:induction false} OnlyNone(lines: seq<Line>, keep: Line -> bool)
    requires forall i :: 0 <= i < |lines| ==> !keep(lines[i])
    ensures Only(lines, keep) == []
  {
    if lines != [] {
      OnlyNone(lines[1..], keep);
    }
  }

  // What the lines of each kind should be.

  /** The parts opened before the turn ends, each as it stood when it was closed, in the order opened. */
  function AllOpened(events: seq<Event>): seq<OpenPart>
    decreases |events|
  {
    var rest := FromClose(events);
    FromCloseShorter(events);
    Opened([], events) + if rest == [] || rest[0].MessageFinished? then [] else AllOpened(rest[1..])
  }

  /** The answers: the text parts that are not blank, trimmed. */
  function Answers(parts: seq<OpenPart>): seq<Line> {
    if parts == [] then [] else AnswerOf(parts[0]) + Answers(parts[1..])
  }

  function AnswerOf(part: OpenPart): seq<Line> {
    if part.kind == Text && Trim(part.text) != [] then [Answer(Trim(part.text))] else []
  }

  /** The parts as objects, text under its name and reasoning under its own. */
  function Shown(parts: seq<OpenPart>): seq<Line> {
    if parts == [] then [] else [Showing(parts[0])] + Shown(parts[1..])
  }

  function Showing(part: OpenPart): Line {
    if part.kind == Reasoning then Emitted(Reasoning, Part(part.id, ReasoningBody(part.text)))
    else Emitted(Text, Part(part.id, TextBody(part.text)))
  }

  /** A call that has finished, on our side or the provider's, and how. */
  function CallOf(event: Event): seq<Line> {
    match event
    case PartUpdated(Part(id, ToolBody(tool, Completed(title)))) => [Ran(if Trim(title) == [] then tool else title)]
    case PartUpdated(Part(id, ToolBody(tool, Failed(error)))) => [CallFailed(tool)]
    case PartStarted(Part(id, ServerToolBody(tool))) => [Ran(tool)]
    case _ => []
  }

  /** The steps that start and finish, the calls that have finished, and the failure of the turn. */
  function MarkOf(event: Event): seq<Line> {
    match event
    case PartStarted(Part(id, StepStartBody)) => [Emitted(StepStart, event.part)]
    case PartStarted(Part(id, StepFinishBody)) => [Emitted(StepFinish, event.part)]
    case PartStarted(Part(id, ServerToolBody(tool))) => [Emitted(ToolUse, event.part)]
    case PartUpdated(Part(id, ToolBody(tool, Completed(title)))) => [Emitted(ToolUse, event.part)]
    case PartUpdated(Part(id, ToolBody(tool, Failed(error)))) => [Emitted(ToolUse, event.part)]
    case MessageFinished(true, Some(error)) => [EmittedError(error)]
    case MessageFinished(true, None) => [EmittedError("the turn failed")]
    case _ => []
  }

  /** What each event is worth, in order, up to the one that ends the turn. */
  function Each(events: seq<Event>, worth: Event -> seq<Line>): seq<Line> {
    if events == [] then []
    else worth(events[0]) + if events[0].MessageFinished? then [] else Each(events[1..], worth)
  }

  /** The model of the first assistant message of the turn. */
  function FirstSpeaker(events: seq<Event>): Option<string> {
    if events == [] || events[0].MessageFinished? then None
    else if events[0].MessageStarted? && events[0].assistant then Some(events[0].model)
    else FirstSpeaker(events[1..])
  }

  // What one event adds, and so what all of them do.

  function Added(setting: Setting, state: State, event: Event): seq<Line> {
    if Closes(event) then AllWritten(setting.format, state.open) + ClosingLines(setting.format, event)
    else if event.MessageStarted? then
      if setting.format.Json? || state.announced || !event.assistant then []
      else [Header(setting.agent, event.model, setting.effort)]
    else AtOnce(setting.format, event)
  }

  lemma AfterAdds(setting: Setting, state: State, event: Event)
    ensures After(setting, state, event).out == state.out + Added(setting, state, event)
  {
    Regroup(state.out, AllWritten(setting.format, state.open), ClosingLines(setting.format, event));
    assert state.out + [] == state.out;
  }

  function Story(setting: Setting, state: State, events: seq<Event>): seq<Line>
    decreases |events|
  {
    if events == [] then AllWritten(setting.format, state.open)
    else
      Added(setting, state, events[0])
      + if events[0].MessageFinished? then [] else Story(setting, After(setting, state, events[0]), events[1..])
  }

  lemma {:induction false} StoryIsTheAccount(setting: Setting, state: State, events: seq<Event>)
    ensures Finished(setting, Heard(setting, state, events)).out == state.out + Story(setting, state, events)
    decreases |events|
  {
    if events != [] {
      var next := After(setting, state, events[0]);
      AfterAdds(setting, state, events[0]);
      if events[0].MessageFinished? {
        assert next.out + [] == next.out && Added(setting, state, events[0]) + [] == Added(setting, state, events[0]);
      } else {
        StoryIsTheAccount(setting, next, events[1..]);
        Regroup(state.out, Added(setting, state, events[0]), Story(setting, next, events[1..]));
      }
    }
  }

  // What is written of parts that close.

  lemma {:induction false} AnswersAppend(a: seq<OpenPart>, b: seq<OpenPart>)
    ensures Answers(a + b) == Answers(a) + Answers(b)
    decreases a
  {
    if a == [] {
      assert a + b == b && Answers(a) + Answers(b) == Answers(b);
    } else {
      assert (a + b)[1..] == a[1..] + b && (a + b)[0] == a[0];
      AnswersAppend(a[1..], b);
      Regroup(AnswerOf(a[0]), Answers(a[1..]), Answers(b));
    }
  }

  lemma {:induction false} ShownAppend(a: seq<OpenPart>, b: seq<OpenPart>)
    ensures Shown(a + b) == Shown(a) + Shown(b)
  {
    if a == [] {
      assert a + b == b && Shown(a) + Shown(b) == Shown(b);
    } else {
      assert (a + b)[1..] == a[1..] + b && (a + b)[0] == a[0];
      ShownAppend(a[1..], b);
      Regroup([Showing(a[0])], Shown(a[1..]), Shown(b));
    }
  }

  predicate Streams(open: seq<OpenPart>) {
    forall i :: 0 <= i < |open| ==> open[i].kind == Text || open[i].kind == Reasoning
  }

  /** Readably, the answers among them. */
  lemma {:induction false} WrittenAnswers(open: seq<OpenPart>)
    requires Streams(open)
    ensures AllWritten(Default, open) == Answers(open)
  {
    if open != [] {
      var n := |open| - 1;
      WrittenAnswers(open[..n]);
      AnswersAppend(open[..n], [open[n]]);
      assert open == open[..n] + [open[n]];
      OneAnswer(open[n]);
    }
  }

  lemma OneAnswer(part: OpenPart)
    requires part.kind == Text || part.kind == Reasoning
    ensures Answers([part]) == Written(Default, part)
  {
    assert [part][1..] == [] && Answers([]) == [];
  }

  /** To a machine, all of them. */
  lemma {:induction false} WrittenShown(open: seq<OpenPart>)
    requires Streams(open)
    ensures AllWritten(Json, open) == Shown(open)
  {
    if open != [] {
      var n := |open| - 1;
      WrittenShown(open[..n]);
      ShownAppend(open[..n], [open[n]]);
      assert open == open[..n] + [open[n]];
      OneShown(open[n]);
    }
  }

  lemma OneShown(part: OpenPart)
    requires part.kind == Text || part.kind == Reasoning
    ensures Shown([part]) == Written(Json, part)
  {
    assert [part][1..] == [] && Shown([]) == [];
  }

  lemma {:induction false} AnswersAre(open: seq<OpenPart>)
    ensures forall i :: 0 <= i < |Answers(open)| ==> Answers(open)[i].Answer?
  {
    if open != [] {
      AnswersAre(open[1..]);
    }
  }

  lemma {:induction false} ShownAre(open: seq<OpenPart>)
    ensures forall i :: 0 <= i < |Shown(open)| ==> IsPart(Shown(open)[i])
  {
    if open != [] {
      ShownAre(open[1..]);
    }
  }

  // One event, line by line.

  function Closed(state: State, event: Event): seq<OpenPart> {
    if Closes(event) then state.open else []
  }

  /** The header this event brings. */
  function Heading(setting: Setting, state: State, event: Event): seq<Line> {
    if event.MessageStarted? && event.assistant && !state.announced
    then [Header(setting.agent, event.model, setting.effort)]
    else []
  }

  /** Readably an event adds the answers it closes, then its header or its call, and nothing else. */
  lemma AddsReadably(setting: Setting, state: State, event: Event)
    requires setting.format == Default && Streams(state.open)
    ensures Added(setting, state, event)
            == Answers(Closed(state, event)) + (Heading(setting, state, event) + CallOf(event))
  {
    if Closes(event) {
      WrittenAnswers(state.open);
    }
    assert Answers([]) == [];
  }

  /** To a machine it adds the parts it closes, then its mark. */
  lemma AddsToAMachine(setting: Setting, state: State, event: Event)
    requires setting.format == Json && Streams(state.open)
    ensures Added(setting, state, event) == Shown(Closed(state, event)) + MarkOf(event)
  {
    if Closes(event) {
      WrittenShown(state.open);
    }
    assert Shown([]) == [];
  }

  // The whole account, line by line.

  /** Every part that closes from a state on, as it stands when it closes. */
  function Whole(open: seq<OpenPart>, events: seq<Event>): seq<OpenPart>
    decreases |events|
  {
    if events == [] then open
    else if events[0].MessageFinished? then open
    else if Closes(events[0]) then open + Whole([], events[1..])
    else Whole(Grow(open, events[0]), events[1..])
  }

  lemma StreamsOn(setting: Setting, state: State, event: Event)
    requires Streams(state.open)
    ensures Streams(After(setting, state, event).open)
    ensures !Closes(event) ==> After(setting, state, event).open == Grow(state.open, event)
    ensures Closes(event) ==> After(setting, state, event).open == []
    ensures setting.format == Default ==>
              After(setting, state, event).announced == (state.announced || (event.MessageStarted? && event.assistant))
  {
    if Reporting.Opens(event) {
      assert Streams([Opening(event)]);
    }
  }

  lemma WholeStep(open: seq<OpenPart>, events: seq<Event>)
    requires events != [] && !events[0].MessageFinished?
    ensures var next := if Closes(events[0]) then [] else Grow(open, events[0]);
            Whole(open, events) == (if Closes(events[0]) then open else []) + Whole(next, events[1..])
  {
    assert [] + Whole(Grow(open, events[0]), events[1..]) == Whole(Grow(open, events[0]), events[1..]);
  }

  lemma OnlyTwice(a: seq<Line>, b: seq<Line>, c: seq<Line>, keep: Line -> bool)
    ensures Only(a + (b + c), keep) == Only(a, keep) + (Only(b, keep) + Only(c, keep))
  {
    OnlyAppend(b, c, keep);
    OnlyAppend(a, b + c, keep);
  }

  lemma CallsAndHeadings(setting: Setting, state: State, event: Event)
    ensures Only(CallOf(event), IsCall) == CallOf(event) && Only(CallOf(event), IsAnswer) == []
            && Only(CallOf(event), IsHeader) == []
    ensures var heading := Heading(setting, state, event);
            Only(heading, IsHeader) == heading && Only(heading, IsCall) == [] && Only(heading, IsAnswer) == []
  {
    var call, heading := CallOf(event), Heading(setting, state, event);
    assert |call| <= 1 && forall i :: 0 <= i < |call| ==> IsCall(call[i]);
    OnlyAll(call, IsCall);
    OnlyNone(call, IsAnswer);
    OnlyNone(call, IsHeader);
    OnlyAll(heading, IsHeader);
    OnlyNone(heading, IsCall);
    OnlyNone(heading, IsAnswer);
  }

  lemma AnswersOnly(open: seq<OpenPart>)
    ensures Only(Answers(open), IsAnswer) == Answers(open) && Only(Answers(open), IsCall) == []
            && Only(Answers(open), IsHeader) == []
  {
    AnswersAre(open);
    OnlyAll(Answers(open), IsAnswer);
    OnlyNone(Answers(open), IsCall);
    OnlyNone(Answers(open), IsHeader);
  }

  /** The lines of each kind that one event adds to a readable account. */
  lemma KindsAdded(setting: Setting, state: State, event: Event)
    requires setting.format == Default && Streams(state.open)
    ensures Only(Added(setting, state, event), IsAnswer) == Answers(Closed(state, event))
    ensures Only(Added(setting, state, event), IsCall) == CallOf(event)
    ensures Only(Added(setting, state, event), IsHeader) == Heading(setting, state, event)
  {
    var answers, heading, call := Answers(Closed(state, event)), Heading(setting, state, event), CallOf(event);
    AddsReadably(setting, state, event);
    CallsAndHeadings(setting, state, event);
    AnswersOnly(Closed(state, event));
    OnlyTwice(answers, heading, call, IsAnswer);
    OnlyTwice(answers, heading, call, IsCall);
    OnlyTwice(answers, heading, call, IsHeader);
  }

  lemma {:induction false} AnswersOfStory(setting: Setting, state: State, events: seq<Event>)
    requires setting.format == Default && Streams(state.open)
    ensures Only(Story(setting, state, events), IsAnswer) == Answers(Whole(state.open, events))
    decreases |events|
  {
    if events == [] {
      WrittenAnswers(state.open);
      AnswersOnly(state.open);
    } else {
      var event, next := events[0], After(setting, state, events[0]);
      var rest := if event.MessageFinished? then [] else Story(setting, next, events[1..]);
      KindsAdded(setting, state, event);
      OnlyAppend(Added(setting, state, event), rest, IsAnswer);
      if event.MessageFinished? {
        assert Answers(state.open) + [] == Answers(state.open);
      } else {
        StreamsOn(setting, state, event);
        AnswersOfStory(setting, next, events[1..]);
        WholeStep(state.open, events);
        AnswersAppend(Closed(state, event), Whole(next.open, events[1..]));
      }
    }
  }

  lemma {:induction false} CallsOfStory(setting: Setting, state: State, events: seq<Event>)
    requires setting.format == Default && Streams(state.open)
    ensures Only(Story(setting, state, events), IsCall) == Each(events, CallOf)
    decreases |events|
  {
    if events == [] {
      WrittenAnswers(state.open);
      AnswersOnly(state.open);
    } else {
      var event, next := events[0], After(setting, state, events[0]);
      var rest := if event.MessageFinished? then [] else Story(setting, next, events[1..]);
      KindsAdded(setting, state, event);
      OnlyAppend(Added(setting, state, event), rest, IsCall);
      if !event.MessageFinished? {
        StreamsOn(setting, state, event);
        CallsOfStory(setting, next, events[1..]);
      }
    }
  }

  /** The header a turn has, if it is still to come. */
  function HeaderFor(setting: Setting, announced: bool, events: seq<Event>): seq<Line> {
    if announced || FirstSpeaker(events).None? then []
    else [Header(setting.agent, FirstSpeaker(events).value, setting.effort)]
  }

  lemma {:induction false} HeaderOfStory(setting: Setting, state: State, events: seq<Event>)
    requires setting.format == Default && Streams(state.open)
    ensures Only(Story(setting, state, events), IsHeader) == HeaderFor(setting, state.announced, events)
    decreases |events|
  {
    if events == [] {
      WrittenAnswers(state.open);
      AnswersOnly(state.open);
    } else {
      var event, next := events[0], After(setting, state, events[0]);
      var rest := if event.MessageFinished? then [] else Story(setting, next, events[1..]);
      KindsAdded(setting, state, event);
      OnlyAppend(Added(setting, state, event), rest, IsHeader);
      if !event.MessageFinished? {
        StreamsOn(setting, state, event);
        HeaderOfStory(setting, next, events[1..]);
      }
    }
  }

  predicate IsReadable(line: Line) {
    line.Answer? || line.Ran? || line.CallFailed? || line.Header?
  }

  predicate AllReadable(lines: seq<Line>) {
    forall i :: 0 <= i < |lines| ==> IsReadable(lines[i])
  }

  lemma {:induction false} StoryIsReadable(setting: Setting, state: State, events: seq<Event>)
    requires setting.format == Default && Streams(state.open)
    ensures AllReadable(Story(setting, state, events))
    decreases |events|
  {
    if events == [] {
      WrittenAnswers(state.open);
      AnswersAre(state.open);
    } else {
      var event, next := events[0], After(setting, state, events[0]);
      AddsReadably(setting, state, event);
      AnswersAre(Closed(state, event));
      assert AllReadable(Added(setting, state, event));
      if !event.MessageFinished? {
        StreamsOn(setting, state, event);
        StoryIsReadable(setting, next, events[1..]);
      }
    }
  }

  // To a machine.

  lemma MarksOnly(event: Event)
    ensures Only(MarkOf(event), IsMark) == MarkOf(event) && Only(MarkOf(event), IsPart) == []
  {
    var mark := MarkOf(event);
    assert |mark| <= 1 && (mark != [] ==> IsMark(mark[0]));
    OnlyAll(mark, IsMark);
    OnlyNone(mark, IsPart);
  }

  lemma PartsAndMarks(open: seq<OpenPart>, event: Event)
    ensures Only(Shown(open) + MarkOf(event), IsPart) == Shown(open)
    ensures Only(Shown(open) + MarkOf(event), IsMark) == MarkOf(event)
  {
    var mark := MarkOf(event);
    ShownAre(open);
    OnlyAll(Shown(open), IsPart);
    OnlyNone(Shown(open), IsMark);
    MarksOnly(event);
    OnlyAppend(Shown(open), mark, IsPart);
    OnlyAppend(Shown(open), mark, IsMark);
  }

  lemma ShownOnly(open: seq<OpenPart>)
    requires Streams(open)
    ensures Only(AllWritten(Json, open), IsPart) == Shown(open) && Only(AllWritten(Json, open), IsMark) == []
  {
    WrittenShown(open);
    ShownAre(open);
    OnlyAll(Shown(open), IsPart);
    OnlyNone(Shown(open), IsMark);
  }

  lemma {:induction false} PartsOfStory(setting: Setting, state: State, events: seq<Event>)
    requires setting.format == Json && Streams(state.open)
    ensures Only(Story(setting, state, events), IsPart) == Shown(Whole(state.open, events))
    ensures Only(Story(setting, state, events), IsMark) == Each(events, MarkOf)
    decreases |events|
  {
    if events == [] {
      ShownOnly(state.open);
    } else {
      var event, next := events[0], After(setting, state, events[0]);
      var rest := if event.MessageFinished? then [] else Story(setting, next, events[1..]);
      AddsToAMachine(setting, state, event);
      PartsAndMarks(Closed(state, event), event);
      OnlyAppend(Added(setting, state, event), rest, IsPart);
      OnlyAppend(Added(setting, state, event), rest, IsMark);
      if event.MessageFinished? {
        assert Shown(state.open) + [] == Shown(state.open);
      } else {
        StreamsOn(setting, state, event);
        PartsOfStory(setting, next, events[1..]);
        WholeStep(state.open, events);
        ShownAppend(Closed(state, event), Whole(next.open, events[1..]));
      }
    }
  }

  // The parts that close are those that were opened.

  /** What closes from a close on. */
  function WholeFrom(events: seq<Event>): seq<OpenPart> {
    if events == [] || events[0].MessageFinished? then [] else Whole([], events[1..])
  }

  lemma {:induction false} WholeToTheClose(open: seq<OpenPart>, events: seq<Event>)
    ensures Whole(open, events) == Grown(open, events) + WholeFrom(FromClose(events))
    decreases |events|
  {
    if events == [] || events[0].MessageFinished? {
      assert open + [] == open;
    } else if !Closes(events[0]) {
      WholeToTheClose(Grow(open, events[0]), events[1..]);
    }
  }

  lemma {:induction false} WholeIsAllOpened(events: seq<Event>)
    ensures Whole([], events) == AllOpened(events)
    decreases |events|
  {
    var rest := FromClose(events);
    FromCloseShorter(events);
    WholeToTheClose([], events);
    OpenAtTheClose([], events);
    assert Standing([], events) + Opened(Ids([]), events) == Opened([], events);
    if rest != [] && !rest[0].MessageFinished? {
      WholeIsAllOpened(rest[1..]);
    }
  }

  /**
   * The readable account of any turn. Its answers are the text parts opened, whole and trimmed, but for blank ones;
   * each call that finished is told as it ended; the header stands once, for the first assistant message; and
   * there is no other line, so no reasoning is told.
   */
  lemma ReadableAccount(setting: Setting, events: seq<Event>)
    requires setting.format == Default
    ensures var out := Finished(setting, Heard(setting, FRESH, events)).out;
            && Only(out, IsAnswer) == Answers(AllOpened(events))
            && Only(out, IsCall) == Each(events, CallOf)
            && Only(out, IsHeader) == HeaderFor(setting, false, events)
            && AllReadable(out)
  {
    var story := Story(setting, FRESH, events);
    StoryIsTheAccount(setting, FRESH, events);
    assert FRESH.out + story == story;
    AnswersOfStory(setting, FRESH, events);
    CallsOfStory(setting, FRESH, events);
    HeaderOfStory(setting, FRESH, events);
    StoryIsReadable(setting, FRESH, events);
    WholeIsAllOpened(events);
  }

  /** The machine-readable account: every part opened, whole and under its own name, and the mark of every event. */
  lemma MachineAccount(setting: Setting, events: seq<Event>)
    requires setting.format == Json
    ensures var out := Finished(setting, Heard(setting, FRESH, events)).out;
            && Only(out, IsPart) == Shown(AllOpened(events))
            && Only(out, IsMark) == Each(events, MarkOf)
  {
    var story := Story(setting, FRESH, events);
    StoryIsTheAccount(setting, FRESH, events);
    assert FRESH.out + story == story;
    PartsOfStory(setting, FRESH, events);
    WholeIsAllOpened(events);
  }

  // In what order, and what is said elsewhere.

  /** What a call that failed says on the other channel. */
  function ErrorOf(event: Event): seq<string> {
    match event
    case PartUpdated(Part(id, ToolBody(tool, Failed(error)))) => [error]
    case _ => []
  }

  /**
   * Readably, each event first tells the answers it closes, and then its own line; a failed call gives its reason
   * on the other channel.
   */
  lemma ToldInOrder(setting: Setting, state: State, event: Event)
    requires setting.format == Default && Streams(state.open)
    ensures After(setting, state, event).out
            == state.out + (Answers(Closed(state, event)) + (Heading(setting, state, event) + CallOf(event)))
    ensures After(setting, state, event).err == state.err + ErrorOf(event)
  {
    AfterAdds(setting, state, event);
    AddsReadably(setting, state, event);
    assert state.err + [] == state.err;
  }

  /** To a machine, the parts it closes and then its own mark, and nothing on the other channel. */
  lemma MarkedInOrder(setting: Setting, state: State, event: Event)
    requires setting.format == Json && Streams(state.open)
    ensures After(setting, state, event).out == state.out + (Shown(Closed(state, event)) + MarkOf(event))
    ensures After(setting, state, event).err == state.err
  {
    AfterAdds(setting, state, event);
    AddsToAMachine(setting, state, event);
    assert state.err + [] == state.err;
  }

  /** A turn fails with what its last event says went wrong, after whatever had already failed. */
  lemma FailsAsTold(setting: Setting, state: State, failed: bool, error: Option<string>)
    ensures var said := if error.Some? then error.value else "the turn failed";
            After(setting, state, MessageFinished(failed, error)).failure
            == if !failed then state.failure
               else if state.failure.None? then Some(said) else Some(state.failure.value + "\n" + said)
  {}
}
