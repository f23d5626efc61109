/** The server's side of a streamed chat turn: which frames it writes for the progress it is told of. */
module Streaming {
  import opened Text
  import opened WordSplit

  datatype ToolCall = ToolCall(id: string, name: string, arguments: string)

  datatype Frame =
    | Content(text: string)
    | ToolCalls(calls: seq<ToolCall>)
    | Stop(reason: string)
    | Status(description: string, done: bool)
    | KeepAlive
    | Done

  /** The three ways the progress callback treats a stage. */
  datatype Stage = SessionLink | Prose | Mechanical

  /** What happens while the stream is open; `step` is the label a progress message has as a mechanical step. */
  datatype Event = Progressed(stage: Stage, message: string, step: string) | Noted(step: string) | Idled

  datatype Ending = Answered(text: string) | Asked(calls: seq<ToolCall>)

  const LINK_INTRO := "\U{1F916} Watch live or take over this session here: "

  /** What a progress message says as prose; an empty message never does, whatever its stage. */
  function Prosaic(e: Event): (content: Option<string>) {
    if !e.Progressed? || e.message == "" || e.stage.Mechanical? then None
    else if e.stage.SessionLink? then Some(LINK_INTRO + e.message + "\n\n")
    else Some(e.message)
  }

  // The text a sequence of pieces is meant to read as.

  /** The last piece that is not empty ended in white space, or there was none. */
  predicate EndedWithSpace(pieces: seq<string>) {
    if pieces == [] then true
    else if Last(pieces) == "" then EndedWithSpace(Front(pieces))
    else IsSpace(Last(Last(pieces)))
  }

  predicate StartsWithSpace(s: string) {
    s != "" && IsSpace(s[0])
  }

  function Separator(pieces: seq<string>, next: string): (separator: string) {
    if !EndedWithSpace(pieces) && !StartsWithSpace(next) then "\n\n" else ""
  }

  function Joined(pieces: seq<string>): (text: string) {
    if pieces == [] then "" else Joined(Front(pieces)) + (Separator(Front(pieces), Last(pieces)) + Last(pieces))
  }

  // What the frames show.

  function TextOf(frames: seq<Frame>): (text: string) {
    if frames == [] then ""
    else TextOf(Front(frames)) + if Last(frames).Content? then Last(frames).text else ""
  }

  /** A progress step starts; the status that ends it names it. */
  function Shown(running: Option<string>, f: Frame): (after: Option<string>) {
    if !f.Status? then running
    else if !f.done then Some(f.description)
    else if running == Some(f.description) then None
    else running
  }

  /** The progress step a client still shows as running. */
  function Running(frames: seq<Frame>): (step: Option<string>) {
    if frames == [] then None else Shown(Running(Front(frames)), Last(frames))
  }

  function Statuses(frames: seq<Frame>): (shown: seq<Frame>) {
    if frames == [] then []
    else if Last(frames).Status? then Statuses(Front(frames)) + [Last(frames)]
    else Statuses(Front(frames))
  }

  /** The step the server takes for open, and the status frames so far. */
  datatype Board = Board(open: Option<string>, shown: seq<Frame>)

  function Cleared(b: Board): (after: Board) {
    Board(None, if b.open == None then b.shown else b.shown + [Status(b.open.value, true)])
  }

  /** Prose closes the open step; any other progress opens one, whatever is open; a note is over as it is shown. */
  function OnBoard(b: Board, e: Event): (after: Board) {
    match e
    case Progressed(_, _, step) =>
      if Prosaic(e).Some? then Cleared(b) else Board(Some(step), b.shown + [Status(step, false)])
    case Noted(step) => b.(shown := b.shown + [Status(step, true)])
    case Idled => b
  }

  function BoardOf(events: seq<Event>): (b: Board) {
    if events == [] then Board(None, []) else OnBoard(BoardOf(Front(events)), Last(events))
  }

  /** Prose, tool calls and the end of the turn are only ever shown with no step running. */
  predicate Orderly(frames: seq<Frame>) {
    forall i :: 0 <= i < |frames| && (frames[i].Content? || frames[i].ToolCalls? || frames[i].Stop?)
      ==> Running(frames[..i]) == None
  }

  predicate Unfinished(frames: seq<Frame>) {
    forall i :: 0 <= i < |frames| ==> !frames[i].Stop? && !frames[i].Done? && !frames[i].ToolCalls?
  }

  lemma OrderlyNext(frames: seq<Frame>, f: Frame)
    ensures Orderly(frames + [f]) <==>
      Orderly(frames) && (f.Content? || f.ToolCalls? || f.Stop? ==> Running(frames) == None)
  {
    var more := frames + [f];
    assert forall i :: 0 <= i < |frames| ==> more[..i] == frames[..i] && more[i] == frames[i];
    assert more[..|frames|] == frames;
  }

  lemma FrameNext(frames: seq<Frame>, f: Frame)
    ensures TextOf(frames + [f]) == TextOf(frames) + if f.Content? then f.text else ""
    ensures Running(frames + [f]) == Shown(Running(frames), f)
    ensures Statuses(frames + [f]) == if f.Status? then Statuses(frames) + [f] else Statuses(frames)
    ensures Orderly(frames + [f]) <==>
      Orderly(frames) && (f.Content? || f.ToolCalls? || f.Stop? ==> Running(frames) == None)
  {
    assert Front(frames + [f]) == frames;
    OrderlyNext(frames, f);
  }

  lemma PieceNext(pieces: seq<string>, next: string)
    ensures Joined(pieces + [next]) == Joined(pieces) + (Separator(pieces, next) + next)
    ensures EndedWithSpace(pieces + [next]) == if next == "" then EndedWithSpace(pieces) else IsSpace(Last(next))
  {
    assert Front(pieces + [next]) == pieces;
  }

  function Closed(body: seq<Frame>, ending: Ending): (frames: seq<Frame>) {
    match ending
    case Answered(_) => body + [Stop("stop")] + [Done]
    case Asked(calls) => body + [ToolCalls(calls)] + [Stop("tool_calls")] + [Done]
  }

  /** A finished turn: nothing ended before, nothing was left running, and the closing frames fit the ending. */
  ghost predicate Ended(frames: seq<Frame>, ending: Ending) {
    Orderly(frames) && exists body :: frames == Closed(body, ending) && Unfinished(body) && Running(body) == None
  }

  /** Frame `j` ends step `step`, by its done frame or because a later step takes its place. */
  predicate Ends(frames: seq<Frame>, j: nat, step: string)
    requires j < |frames|
  {
    frames[j] == Status(step, true) || (frames[j].Status? && !frames[j].done)
  }

  lemma {:induction false} StepRunsOn(frames: seq<Frame>, i: nat, step: string)
    requires i < |frames| && frames[i] == Status(step, false)
    requires forall j: nat :: i < j < |frames| ==> !Ends(frames, j, step)
    ensures Running(frames) == Some(step)
  {
    if i == |frames| - 1 {
    } else {
      var before := Front(frames);
      assert !Ends(frames, |frames| - 1, step);
      forall j: nat | i < j < |before|
        ensures !Ends(before, j, step)
      {
        assert !Ends(frames, j, step);
      }
      StepRunsOn(before, i, step);
    }
  }

  lemma ClosingKeepsRunning(body: seq<Frame>, ending: Ending)
    ensures Running(Closed(body, ending)) == Running(body)
  {
    match ending
    case Answered(_) =>
      FrameNext(body, Stop("stop"));
      FrameNext(body + [Stop("stop")], Done);
    case Asked(calls) =>
      FrameNext(body, ToolCalls(calls));
      FrameNext(body + [ToolCalls(calls)], Stop("tool_calls"));
      FrameNext(body + [ToolCalls(calls)] + [Stop("tool_calls")], Done);
  }

  /** In a finished turn every step that was started got its done frame or was superseded by a later step. */
  lemma EveryStepEnds(frames: seq<Frame>, ending: Ending, i: nat, step: string)
    requires Ended(frames, ending) && i < |frames| && frames[i] == Status(step, false)
    ensures exists j: nat :: i < j < |frames| && Ends(frames, j, step)
  {
    var body :| frames == Closed(body, ending) && Unfinished(body) && Running(body) == None;
    ClosingKeepsRunning(body, ending);
    if forall j: nat :: i < j < |frames| ==> !Ends(frames, j, step) {
      StepRunsOn(frames, i, step);
    }
  }

  /** What the written frames owe to the pieces said and to the step the server takes for open. */
  ghost predicate Shows(frames: seq<Frame>, openStatusLabel: Option<string>, pieces: seq<string>) {
    && TextOf(frames) == Joined(pieces)
    && (Running(frames) == None || Running(frames) == openStatusLabel)
    && Orderly(frames) && Unfinished(frames)
  }

  lemma ShowsContent(frames: seq<Frame>, pieces: seq<string>, next: string)
    requires Shows(frames, None, pieces)
    ensures Shows(frames + [Content(Separator(pieces, next) + next)], None, pieces + [next])
  {
    FrameNext(frames, Content(Separator(pieces, next) + next));
    PieceNext(pieces, next);
  }

  lemma ShowsOther(frames: seq<Frame>, was: Option<string>, pieces: seq<string>, f: Frame, now: Option<string>)
    requires Shows(frames, was, pieces)
    requires (f.Status? && (now == was || now == Shown(was, f))) || (f.KeepAlive? && now == was)
    requires f.Status? && !f.done ==> now == Some(f.description)
    ensures Shows(frames + [f], now, pieces)
  {
    FrameNext(frames, f);
  }

  lemma ShowsEnd(frames: seq<Frame>, pieces: seq<string>, ending: Ending)
    requires Shows(frames, None, pieces)
    ensures TextOf(Closed(frames, ending)) == Joined(pieces) && Ended(Closed(frames, ending), ending)
    ensures Statuses(Closed(frames, ending)) == Statuses(frames)
  {
    match ending
    case Answered(_) =>
      FrameNext(frames, Stop("stop"));
      FrameNext(frames + [Stop("stop")], Done);
    case Asked(calls) =>
      FrameNext(frames, ToolCalls(calls));
      FrameNext(frames + [ToolCalls(calls)], Stop("tool_calls"));
      FrameNext(frames + [ToolCalls(calls)] + [Stop("tool_calls")], Done);
  }

  class Stream {
    var frames: seq<Frame>
    var openStatusLabel: Option<string>
    var lastContentEndedWithSpace: bool
    ghost var pieces: seq<string>

    ghost predicate Valid()
      reads this
    {
      Shows(frames, openStatusLabel, pieces) && lastContentEndedWithSpace == EndedWithSpace(pieces)
    }

    ghost function BoardNow(): (b: Board)
      reads this
    {
      Board(openStatusLabel, Statuses(frames))
    }

    constructor ()
      ensures Valid() && pieces == [] && BoardNow() == Board(None, [])
    {
      frames := [];
      openStatusLabel := None;
      lastContentEndedWithSpace := true;
      pieces := [];
    }

    method WithSeparator(content: string) returns (written: string)
      requires lastContentEndedWithSpace == EndedWithSpace(pieces)
      modifies this`lastContentEndedWithSpace, this`pieces
      ensures pieces == old(pieces) + [content]
      ensures lastContentEndedWithSpace == EndedWithSpace(pieces)
      ensures written == Separator(old(pieces), content) + content
    {
      PieceNext(pieces, content);
      var needsSeparator := !lastContentEndedWithSpace && !StartsWithSpace(content);
      lastContentEndedWithSpace := if content == "" then lastContentEndedWithSpace else IsSpace(Last(content));
      pieces := pieces + [content];
      written := if needsSeparator then "\n\n" + content else content;
    }

    method CloseStatus()
      requires Valid()
      modifies this`frames, this`openStatusLabel
      ensures Valid() && BoardNow() == Cleared(old(BoardNow()))
    {
      if openStatusLabel != None {
        FrameNext(frames, Status(openStatusLabel.value, true));
        var closing := Status(openStatusLabel.value, true);
        ShowsOther(frames, openStatusLabel, pieces, closing, None);
        frames := frames + [closing];
        openStatusLabel := None;
      }
    }

    method WriteContent(content: string)
      requires Valid() && openStatusLabel == None
      modifies this`frames, this`lastContentEndedWithSpace, this`pieces
      ensures Valid() && pieces == old(pieces) + [content] && BoardNow() == old(BoardNow())
    {
      ghost var shown, said := frames, pieces;
      var written := WithSeparator(content);
      FrameNext(frames, Content(written));
      ShowsContent(shown, said, content);
      frames := frames + [Content(written)];
    }

    method Say(content: string)
      requires Valid()
      modifies this
      ensures Valid() && pieces == old(pieces) + [content] && BoardNow() == Cleared(old(BoardNow()))
    {
      CloseStatus();
      WriteContent(content);
    }

    method Progress(step: string)
      requires Valid()
      modifies this`frames, this`openStatusLabel
      ensures Valid() && BoardNow() == Board(Some(step), old(BoardNow()).shown + [Status(step, false)])
    {
      FrameNext(frames, Status(step, false));
      ShowsOther(frames, openStatusLabel, pieces, Status(step, false), Some(step));
      openStatusLabel := Some(step);
      frames := frames + [Status(step, false)];
    }

    method OnProgress(stage: Stage, message: string, step: string)
      requires Valid()
      modifies this
      ensures Valid()
      ensures BoardNow() == OnBoard(old(BoardNow()), Progressed(stage, message, step))
      ensures var content := Prosaic(Progressed(stage, message, step));
        pieces == if content.Some? then old(pieces) + [content.value] else old(pieces)
    {
      if stage.SessionLink? && message != "" {
        Say(LINK_INTRO + message + "\n\n");
      } else if stage.Prose? && message != "" {
        Say(message);
      } else {
        Progress(step);
      }
    }

    method Note(step: string)
      requires Valid()
      modifies this`frames
      ensures Valid() && BoardNow() == old(BoardNow()).(shown := old(BoardNow()).shown + [Status(step, true)])
    {
      FrameNext(frames, Status(step, true));
      ShowsOther(frames, openStatusLabel, pieces, Status(step, true), openStatusLabel);
      frames := frames + [Status(step, true)];
    }

    method Heartbeat()
      requires Valid()
      modifies this`frames
      ensures Valid() && BoardNow() == old(BoardNow())
    {
      FrameNext(frames, KeepAlive);
      ShowsOther(frames, openStatusLabel, pieces, KeepAlive, openStatusLabel);
      frames := frames + [KeepAlive];
    }

    method On(e: Event)
      requires Valid()
      modifies this
      ensures Valid() && BoardNow() == OnBoard(old(BoardNow()), e)
      ensures pieces == if Prosaic(e).Some? then old(pieces) + [Prosaic(e).value] else old(pieces)
    {
      match e {
        case Progressed(stage, message, step) => OnProgress(stage, message, step);
        case Noted(step) => Note(step);
        case Idled => Heartbeat();
      }
    }

    method Finish(content: string)
      requires Valid()
      modifies this
      ensures Ended(frames, Answered(content)) && TextOf(frames) == Joined(old(pieces) + [content])
      ensures Statuses(frames) == Cleared(old(BoardNow())).shown
    {
      Say(content);
      ShowsEnd(frames, pieces, Answered(content));
      frames := frames + [Stop("stop")] + [Done];
    }

    method FinishWithToolCalls(calls: seq<ToolCall>)
      requires Valid()
      modifies this
      ensures Ended(frames, Asked(calls)) && TextOf(frames) == Joined(old(pieces))
      ensures Statuses(frames) == Cleared(old(BoardNow())).shown
    {
      CloseStatus();
      ShowsEnd(frames, pieces, Asked(calls));
      frames := frames + [ToolCalls(calls)] + [Stop("tool_calls")] + [Done];
    }
  }

  function Spoken(events: seq<Event>): (pieces: seq<string>) {
    if events == [] then []
    else if Prosaic(Last(events)).Some? then Spoken(Front(events)) + [Prosaic(Last(events)).value]
    else Spoken(Front(events))
  }

  lemma SpokenNext(events: seq<Event>, i: nat)
    requires i < |events|
    ensures var content := Prosaic(events[i]);
      Spoken(events[..i + 1]) == if content.Some? then Spoken(events[..i]) + [content.value] else Spoken(events[..i])
    ensures BoardOf(events[..i + 1]) == OnBoard(BoardOf(events[..i]), events[i])
  {
    assert Front(events[..i + 1]) == events[..i];
  }

  /** Everything said in a turn, in order; an answer is the last piece. */
  function Pieces(events: seq<Event>, ending: Ending): (pieces: seq<string>) {
    if ending.Answered? then Spoken(events) + [ending.text] else Spoken(events)
  }

  /**
   * A whole streamed turn. Its frames carry the pieces joined, show prose and the end only while no progress step
   * runs, and end with the ones closing the ending calls for.
   */
  method Respond(events: seq<Event>, ending: Ending) returns (frames: seq<Frame>)
    ensures TextOf(frames) == Joined(Pieces(events, ending))
    ensures Statuses(frames) == Cleared(BoardOf(events)).shown
    ensures Ended(frames, ending)
  {
    var stream := new Stream();
    for i := 0 to |events|
      invariant fresh(stream) && stream.Valid() && stream.pieces == Spoken(events[..i])
      invariant stream.BoardNow() == BoardOf(events[..i])
    {
      SpokenNext(events, i);
      stream.On(events[i]);
    }
    assert events[..|events|] == events;
    match ending {
      case Answered(text) => stream.Finish(text);
      case Asked(calls) => stream.FinishWithToolCalls(calls);
    }
    frames := stream.frames;
  }

  // What joining does to the pieces.

  /** No piece is empty, as the agents send them. */
  predicate NoneEmpty(pieces: seq<string>) {
    forall i :: 0 <= i < |pieces| ==> pieces[i] != ""
  }

  /** Between pieces that are not empty, a blank line stands exactly where neither side brings white space. */
  lemma Junction(pieces: seq<string>, next: string)
    requires NoneEmpty(pieces) && next != ""
    ensures Joined(pieces + [next]) == Joined(pieces)
      + (if pieces != [] && !IsSpace(Last(Last(pieces))) && !IsSpace(next[0]) then "\n\n" else "") + next
  {
    assert Front(pieces + [next]) == pieces;
    assert pieces != [] ==> Last(pieces) == pieces[|pieces| - 1];
  }

  function WordsOfAll(pieces: seq<string>): (words: seq<string>) {
    if pieces == [] then [] else WordsOfAll(Front(pieces)) + Words(Last(pieces))
  }

  lemma {:induction false} JoinedEnd(pieces: seq<string>)
    requires EndedWithSpace(pieces)
    ensures Between(Joined(pieces))
  {
    if pieces == [] {
    } else {
      var before, piece := Front(pieces), Last(pieces);
      if piece == "" {
        JoinedEnd(before);
        assert Joined(pieces) == Joined(before) + "" == Joined(before);
      } else {
        assert Last(Joined(pieces)) == Last(piece);
      }
    }
  }

  lemma WordsOfBlank()
    ensures Words("\n\n") == []
  {
    assert Front("\n\n") == "\n" && Front("\n") == "";
  }

  lemma WordsApart(text: string, piece: string)
    ensures Words(text + ("\n\n" + piece)) == Words(text) + Words(piece)
  {
    var blank := "\n\n";
    assert text + (blank + piece) == (text + blank) + piece;
    assert Last(text + blank) == '\n';
    WordsConcat(text + blank, piece);
    WordsConcat(text, blank);
    WordsOfBlank();
  }

  /** No word is fused with its neighbour, lost or split: the text has exactly the pieces' words. */
  lemma {:induction false} WordsSurvive(pieces: seq<string>)
    ensures Words(Joined(pieces)) == WordsOfAll(pieces)
  {
    if pieces == [] {
    } else {
      var before, piece := Front(pieces), Last(pieces);
      WordsSurvive(before);
      if Separator(before, piece) == "" {
        if EndedWithSpace(before) {
          JoinedEnd(before);
        }
        assert "" + piece == piece;
        WordsConcat(Joined(before), piece);
      } else {
        WordsApart(Joined(before), piece);
      }
    }
  }

  /**
   * What progress reads as: agent text and link prompts word for word, the session link inside its sentence and followed
   * by a blank line; mechanical stages and empty messages as nothing.
   */
  lemma ProgressReads(events: seq<Event>, stage: Stage, message: string, step: string)
    ensures var said, after := Spoken(events), Spoken(events + [Progressed(stage, message, step)]);
      && (stage.Mechanical? || message == "" ==> after == said)
      && (stage.Prose? && message != "" ==> after == said + [message])
      && (stage.SessionLink? && message != "" ==>
            after == said + ["\U{1F916} Watch live or take over this session here: " + message + "\n\n"])
  {
    assert Front(events + [Progressed(stage, message, step)]) == events;
  }

  /** Progress never says nothing, so of all the pieces of a turn only the answer can be empty. */
  lemma {:induction false} SpokenIsNotEmpty(events: seq<Event>)
    ensures NoneEmpty(Spoken(events))
  {
    if events == [] {
    } else {
      SpokenIsNotEmpty(Front(events));
    }
  }

  /**
   * An empty answer is not always nothing: it leaves a blank line behind unless the text so far is empty or ends in
   * white space. It reads as no answer exactly in that case.
   */
  lemma EmptyAnswerIsHarmlessIff(events: seq<Event>)
    ensures var said := Spoken(events);
      && (Joined(Pieces(events, Answered(""))) == Joined(said) <==> EndedWithSpace(said))
      && (!EndedWithSpace(said) ==> Joined(Pieces(events, Answered(""))) == Joined(said) + "\n\n")
  {
    var said := Spoken(events);
    PieceNext(said, "");
    assert "" + "" == "" && "\n\n" + "" == "\n\n";
    assert Joined(said) + "" == Joined(said);
    assert |Joined(said) + "\n\n"| == |Joined(said)| + 2;
  }
}
