/** The stdout line buffer of the one-shot CLI turn: newline-delimited JSON read in arbitrary chunks. */
module LineBuffer {
  import opened Text

  /** What one finished line contributes: nothing when blank or not JSON, else its event. */
  function Handle<Event>(parse: string -> Option<Event>, line: string): (events: seq<Event>) {
    var t := Trim(line);
    if t == "" || parse(t).None? then [] else [parse(t).value]
  }

  /** The simple whole-input form: parse every line of the finished output. */
  function HandleAll<Event>(parse: string -> Option<Event>, lines: seq<string>): (events: seq<Event>) {
    if lines == [] then [] else HandleAll(parse, Front(lines)) + Handle(parse, Last(lines))
  }

  lemma SplitRunsOn(received: string, lineBuf: string, chunk: string)
    requires lineBuf == Last(Split(received, '\n')) && '\n' !in lineBuf
    ensures Split(received + chunk, '\n') == Front(Split(received, '\n')) + Split(lineBuf + chunk, '\n')
  {
    SplitAppend(received, chunk, '\n');
    SplitAppend(lineBuf, chunk, '\n');
    SplitOne(lineBuf, '\n');
  }

  lemma HandleNext<Event>(parse: string -> Option<Event>, done: seq<string>, line: string)
    ensures HandleAll(parse, done + [line]) == HandleAll(parse, done) + Handle(parse, line)
  {
    assert Front(done + [line]) == done;
  }

  /** A line counts without its surrounding blanks, a carriage return say; blank lines and lines that do not parse count for nothing. */
  lemma LinesAreTrimmed<Event>(parse: string -> Option<Event>, before: string, core: string, after: string)
    requires AllSpace(before) && AllSpace(after)
    requires core == "" || (!IsSpace(core[0]) && !IsSpace(Last(core)))
    ensures Handle(parse, before + core + after) ==
      if core == "" || parse(core).None? then [] else [parse(core).value]
  {
    if core == "" {
      BlankIff(before + core + after);
    } else {
      TrimPadded(before, core, after);
    }
  }

  /** Taking the first finished line off the unread rest. */
  lemma TakeLine<Event>(
    parse: string -> Option<Event>, all: seq<string>, done: seq<string>, lineBuf: string, idx: nat)
    requires idx < |lineBuf| && lineBuf[idx] == '\n' && '\n' !in lineBuf[..idx]
    requires all == done + Split(lineBuf, '\n')
    ensures all == done + [lineBuf[..idx]] + Split(lineBuf[idx + 1..], '\n')
    ensures HandleAll(parse, done + [lineBuf[..idx]]) == HandleAll(parse, done) + Handle(parse, lineBuf[..idx])
  {
    SplitAt(lineBuf, '\n', idx);
    AppendAssoc(done, [lineBuf[..idx]], Split(lineBuf[idx + 1..], '\n'));
    HandleNext(parse, done, lineBuf[..idx]);
  }

  /** Without a newline left, the rest is the unfinished last line. */
  lemma NothingToTake(all: seq<string>, done: seq<string>, lineBuf: string)
    requires all == done + Split(lineBuf, '\n') && '\n' !in lineBuf
    ensures all != [] && Front(all) == done && Last(all) == lineBuf
  {
    SplitOne(lineBuf, '\n');
  }

  predicate IsNextNewline(s: string, idx: Option<nat>) {
    match idx
    case None => '\n' !in s
    case Some(i) => i < |s| && s[i] == '\n' && '\n' !in s[..i]
  }

  /** `indexOf("\n")`. */
  method NextNewline(s: string) returns (idx: Option<nat>)
    ensures IsNextNewline(s, idx)
  {
    idx := IndexOf(s, '\n');
  }

  class Reader<Event(!new)> {
    const parse: string -> Option<Event>
    var lineBuf: string
    var handled: seq<Event>
    var sawAnyJson: bool
    ghost var received: string

    /** Everything received so far is the lines already handled plus the unfinished one in the buffer. */
    ghost predicate Valid()
      reads this
    {
      && handled == HandleAll(parse, Front(Split(received, '\n')))
      && lineBuf == Last(Split(received, '\n'))
      && '\n' !in lineBuf
      && sawAnyJson == (handled != [])
    }

    constructor (parse: string -> Option<Event>)
      ensures Valid() && received == "" && this.parse == parse
    {
      this.parse := parse;
      lineBuf := "";
      handled := [];
      sawAnyJson := false;
      received := "";
    }

    method HandleLine(line: string)
      modifies this`handled, this`sawAnyJson
      ensures handled == old(handled) + Handle(parse, line)
      ensures sawAnyJson == (old(sawAnyJson) || Handle(parse, line) != [])
    {
      var t := Trim(line);
      if t != "" {
        var event := parse(t);
        if event.Some? {
          handled := handled + [event.value];
          sawAnyJson := true;
        }
      }
    }

    /** `done` are the lines handled, the rest of `all` is in the buffer. */
    ghost predicate Between(all: seq<string>, done: seq<string>)
      reads this
    {
      && all == done + Split(lineBuf, '\n')
      && handled == HandleAll(parse, done)
      && sawAnyJson == (handled != [])
    }

    /** The loop body: one finished line leaves the buffer. */
    method TakeOne(idx: nat, ghost all: seq<string>, ghost done: seq<string>)
      requires Between(all, done) && IsNextNewline(lineBuf, Some(idx))
      modifies this`handled, this`sawAnyJson, this`lineBuf
      ensures Between(all, done + [old(lineBuf)[..idx]]) && lineBuf == old(lineBuf)[idx + 1..]
    {
      var line := lineBuf[..idx];
      TakeLine(parse, all, done, lineBuf, idx);
      HandleLine(line);
      lineBuf := lineBuf[idx + 1..];
    }

    method OnData(chunk: string)
      requires Valid()
      modifies this
      ensures Valid() && received == old(received) + chunk
    {
      ghost var done := Front(Split(received, '\n'));
      SplitRunsOn(received, lineBuf, chunk);
      received := received + chunk;
      lineBuf := lineBuf + chunk;
      ghost var all := Split(received, '\n');
      var idx := NextNewline(lineBuf);
      while idx.Some?
        invariant IsNextNewline(lineBuf, idx)
        invariant Between(all, done)
        invariant received == old(received) + chunk
        decreases |lineBuf|
      {
        ghost var line := lineBuf[..idx.value];
        TakeOne(idx.value, all, done);
        done := done + [line];
        idx := NextNewline(lineBuf);
      }
      NothingToTake(all, done, lineBuf);
    }

    method OnClose()
      requires Valid()
      modifies this
      ensures handled == HandleAll(parse, Split(received, '\n'))
      ensures sawAnyJson == (handled != [])
      ensures received == old(received)
    {
      HandleLine(lineBuf);
    }
  }

  /** A whole child process: the chunks as they arrive, then the close handler. */
  method ReadOutput<Event(!new)>(parse: string -> Option<Event>, chunks: seq<string>) returns (events: seq<Event>)
    ensures events == HandleAll(parse, Split(Concat(chunks), '\n'))
  {
    var reader := new Reader<Event>(parse);
    for i := 0 to |chunks|
      invariant fresh(reader) && reader.Valid() && reader.parse == parse
      invariant reader.received == Concat(chunks[..i])
    {
      ConcatNext(chunks, i);
      reader.OnData(chunks[i]);
    }
    assert chunks[..|chunks|] == chunks;
    reader.OnClose();
    events := reader.handled;
  }
}
