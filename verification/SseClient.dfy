/** The client's side of a streamed chat turn: prose and tool calls put together from the body of the response. */
module SseClient {
  import opened Text
  import opened WordSplit
  import opened Streaming

  /** One entry of a `tool_calls` delta; None is an absent field. */
  datatype Delta = Delta(index: Option<nat>, id: Option<string>, name: Option<string>, arguments: Option<string>)

  /** What the client looks at in a parsed frame. */
  datatype Chunk = Chunk(content: Option<string>, toolCalls: seq<Delta>, finish: Option<string>)

  const SILENT := Chunk(None, [], None)

  const DATA := "data:"

  /** The payload of a `data:` line, blank ones and the end mark aside. */
  function Payload(line: string): (data: Option<string>) {
    if !(DATA <= line) then None
    else
      var data := Trim(line[|DATA|..]);
      if data == "" || data == "[DONE]" then None else Some(data)
  }

  /** A `data:` line carries what follows, blanks around it aside; an empty one and the end mark carry nothing. */
  lemma DataLineCarries(before: string, data: string, after: string)
    requires AllSpace(before) && AllSpace(after) && data != "" && !IsSpace(data[0]) && !IsSpace(Last(data))
    ensures Payload("data:" + (before + data + after)) == if data == "[DONE]" then None else Some(data)
    ensures Payload("data:" + before) == None
  {
    TrimPadded(before, data, after);
    assert ("data:" + (before + data + after))[|DATA|..] == before + data + after;
    assert ("data:" + before)[|DATA|..] == before;
    BlankIff(before);
  }

  function Parsed(parse: string -> Option<Chunk>, line: string): (chunk: Chunk) {
    var data := Payload(line);
    if data.None? || parse(data.value).None? then SILENT else parse(data.value).value
  }

  /** How the client reads a line. */
  function Reader(parse: string -> Option<Chunk>): (read: string -> Chunk) {
    (line: string) => Parsed(parse, line)
  }

  function TextOrNothing(chunk: Chunk): (text: string) {
    if chunk.content.Some? then chunk.content.value else ""
  }

  function Contents(read: string -> Chunk, lines: seq<string>): (text: string) {
    if lines == [] then "" else Contents(read, Front(lines)) + TextOrNothing(read(Last(lines)))
  }

  function Deltas(read: string -> Chunk, lines: seq<string>): (deltas: seq<Delta>) {
    if lines == [] then [] else Deltas(read, Front(lines)) + read(Last(lines)).toolCalls
  }

  /** The last finish reason of the lines. */
  function Reason(read: string -> Chunk, lines: seq<string>): (reason: Option<string>) {
    if lines == [] then None
    else if read(Last(lines)).finish.Some? then read(Last(lines)).finish
    else Reason(read, Front(lines))
  }

  lemma LineNext(read: string -> Chunk, lines: seq<string>, line: string, chunk: Chunk)
    requires read(line) == chunk
    ensures Contents(read, lines + [line]) == Contents(read, lines) + TextOrNothing(chunk)
    ensures Deltas(read, lines + [line]) == Deltas(read, lines) + chunk.toolCalls
    ensures Reason(read, lines + [line]) == if chunk.finish.Some? then chunk.finish else Reason(read, lines)
  {
    assert Front(lines + [line]) == lines;
  }

  lemma ContentLineNext(read: string -> Chunk, lines: seq<string>, i: nat, chunk: Chunk)
    requires i < |lines| && read(lines[i]) == chunk
    ensures Contents(read, lines[..i + 1]) == Contents(read, lines[..i]) + TextOrNothing(chunk)
  {
    assert lines[..i + 1] == lines[..i] + [lines[i]];
    LineNext(read, lines[..i], lines[i], chunk);
  }

  method ReadChunk(parse: string -> Option<Chunk>, line: string) returns (chunk: Option<Chunk>)
    ensures Reader(parse)(line) == if chunk.Some? then chunk.value else SILENT
  {
    var data := Payload(line);
    chunk := if data.None? then None else parse(data.value);
  }

  method ContentsOf(parse: string -> Option<Chunk>, lines: seq<string>) returns (text: string)
    ensures text == Contents(Reader(parse), lines)
  {
    text := "";
    for i := 0 to |lines|
      invariant text == Contents(Reader(parse), lines[..i])
    {
      var chunk := ReadChunk(parse, lines[i]);
      ContentLineNext(Reader(parse), lines, i, if chunk.Some? then chunk.value else SILENT);
      if chunk.Some? && chunk.value.content.Some? {
        text := text + chunk.value.content.value;
      }
    }
    assert lines[..|lines|] == lines;
  }

  method AssembleSseContent(parse: string -> Option<Chunk>, body: string) returns (text: string)
    ensures text == Contents(Reader(parse), Split(body, '\n'))
  {
    var lines := Split(body, '\n');
    text := ContentsOf(parse, lines);
  }

  lemma ReasonLineNext(read: string -> Chunk, lines: seq<string>, i: nat, chunk: Chunk)
    requires i < |lines| && read(lines[i]) == chunk
    ensures Reason(read, lines[..i + 1]) == if chunk.finish.Some? then chunk.finish else Reason(read, lines[..i])
  {
    assert lines[..i + 1] == lines[..i] + [lines[i]];
    LineNext(read, lines[..i], lines[i], chunk);
  }

  method ReasonOfLines(parse: string -> Option<Chunk>, lines: seq<string>) returns (reason: Option<string>)
    ensures reason == Reason(Reader(parse), lines)
  {
    reason := None;
    for i := 0 to |lines|
      invariant reason == Reason(Reader(parse), lines[..i])
    {
      var chunk := ReadChunk(parse, lines[i]);
      ReasonLineNext(Reader(parse), lines, i, if chunk.Some? then chunk.value else SILENT);
      if chunk.Some? && chunk.value.finish.Some? {
        reason := chunk.value.finish;
      }
    }
    assert lines[..|lines|] == lines;
  }

  method SseFinishReason(parse: string -> Option<Chunk>, body: string) returns (reason: Option<string>)
    ensures reason == Reason(Reader(parse), Split(body, '\n'))
  {
    reason := ReasonOfLines(parse, Split(body, '\n'));
  }

  // Tool calls by index.

  function IndexOfDelta(d: Delta): (index: nat) {
    if d.index.Some? then d.index.value else 0
  }

  function Or(field: Option<string>, otherwise: string): (value: string) {
    if field.Some? then field.value else otherwise
  }

  function Merge(existing: ToolCall, d: Delta): (call: ToolCall) {
    ToolCall(Or(d.id, existing.id), Or(d.name, existing.name), existing.arguments + Or(d.arguments, ""))
  }

  const NOTHING := ToolCall("", "", "")

  function Add(byIndex: map<nat, ToolCall>, d: Delta): (after: map<nat, ToolCall>) {
    var index := IndexOfDelta(d);
    byIndex[index := Merge(if index in byIndex then byIndex[index] else NOTHING, d)]
  }

  function ByIndex(deltas: seq<Delta>): (byIndex: map<nat, ToolCall>) {
    if deltas == [] then map[] else Add(ByIndex(Front(deltas)), Last(deltas))
  }

  lemma AddNext(deltas: seq<Delta>, d: Delta)
    ensures ByIndex(deltas + [d]) == Add(ByIndex(deltas), d)
  {
    assert Front(deltas + [d]) == deltas;
  }

  predicate IsMax(keys: set<nat>, m: nat) {
    m in keys && forall k <- keys :: k <= m
  }

  lemma MaxWith(keys: set<nat>, x: nat, m: nat)
    requires x in keys && IsMax(keys - {x}, m)
    ensures IsMax(keys, if x > m then x else m)
  {
    forall k <- keys
      ensures k <= if x > m then x else m
    {
      assert k == x || k in keys - {x};
    }
  }

  lemma MaxOfOne(keys: set<nat>, x: nat)
    requires x in keys && keys - {x} == {}
    ensures IsMax(keys, x)
  {
    forall k <- keys
      ensures k <= x
    {
      assert k == x || k in keys - {x};
    }
  }

  lemma {:induction false} Largest(keys: set<nat>)
    requires keys != {}
    ensures exists m :: IsMax(keys, m)
  {
    var x :| x in keys;
    if keys - {x} == {} {
      MaxOfOne(keys, x);
    } else {
      Largest(keys - {x});
      var m :| IsMax(keys - {x}, m);
      MaxWith(keys, x, m);
    }
  }

  function Max(keys: set<nat>): (m: nat)
    requires keys != {}
    ensures IsMax(keys, m)
  {
    Largest(keys);
    var m :| IsMax(keys, m);
    m
  }

  /** The keys in ascending order. */
  function Ascending(keys: set<nat>): (sorted: seq<nat>)
    ensures forall k :: k in sorted <==> k in keys
    ensures forall i, j :: 0 <= i < j < |sorted| ==> sorted[i] < sorted[j]
    decreases |keys|
  {
    if keys == {} then [] else Ascending(keys - {Max(keys)}) + [Max(keys)]
  }

  function InOrder(byIndex: map<nat, ToolCall>): (calls: seq<ToolCall>) {
    var keys := Ascending(byIndex.Keys);
    seq(|keys|, i requires 0 <= i < |keys| => byIndex[keys[i]])
  }

  lemma AddStep(before: seq<Delta>, toolCalls: seq<Delta>, k: nat)
    requires k < |toolCalls|
    ensures ByIndex(before + toolCalls[..k + 1]) == Add(ByIndex(before + toolCalls[..k]), toolCalls[k])
  {
    assert before + toolCalls[..k + 1] == before + toolCalls[..k] + [toolCalls[k]];
    AddNext(before + toolCalls[..k], toolCalls[k]);
  }

  method AddAll(byIndex: map<nat, ToolCall>, toolCalls: seq<Delta>, ghost before: seq<Delta>)
    returns (after: map<nat, ToolCall>)
    requires byIndex == ByIndex(before)
    ensures after == ByIndex(before + toolCalls)
  {
    after := byIndex;
    assert before + [] == before;
    for k := 0 to |toolCalls|
      invariant after == ByIndex(before + toolCalls[..k])
    {
      var call := toolCalls[k];
      AddStep(before, toolCalls, k);
      var index := IndexOfDelta(call);
      var existing := if index in after then after[index] else NOTHING;
      after := after[index := ToolCall(Or(call.id, existing.id), Or(call.name, existing.name),
                                       existing.arguments + Or(call.arguments, ""))];
    }
    assert toolCalls[..|toolCalls|] == toolCalls;
  }

  lemma ToolLineNext(read: string -> Chunk, lines: seq<string>, i: nat, chunk: Chunk)
    requires i < |lines| && read(lines[i]) == chunk
    ensures Deltas(read, lines[..i + 1]) == Deltas(read, lines[..i]) + chunk.toolCalls
  {
    assert lines[..i + 1] == lines[..i] + [lines[i]];
    LineNext(read, lines[..i], lines[i], chunk);
  }

  method ToolCallsOf(parse: string -> Option<Chunk>, lines: seq<string>) returns (byIndex: map<nat, ToolCall>)
    ensures byIndex == ByIndex(Deltas(Reader(parse), lines))
  {
    byIndex := map[];
    for i := 0 to |lines|
      invariant byIndex == ByIndex(Deltas(Reader(parse), lines[..i]))
    {
      var chunk := ReadChunk(parse, lines[i]);
      ToolLineNext(Reader(parse), lines, i, if chunk.Some? then chunk.value else SILENT);
      if chunk.Some? {
        byIndex := AddAll(byIndex, chunk.value.toolCalls, Deltas(Reader(parse), lines[..i]));
      } else {
        assert Deltas(Reader(parse), lines[..i]) + [] == Deltas(Reader(parse), lines[..i]);
      }
    }
    assert lines[..|lines|] == lines;
  }

  method AssembleSseToolCalls(parse: string -> Option<Chunk>, body: string) returns (calls: seq<ToolCall>)
    ensures calls == InOrder(ByIndex(Deltas(Reader(parse), Split(body, '\n'))))
  {
    var lines := Split(body, '\n');
    var byIndex := ToolCallsOf(parse, lines);
    calls := InOrder(byIndex);
  }

  /** The deltas of one call, in order of arrival. */
  function Of(deltas: seq<Delta>, index: nat): (own: seq<Delta>) {
    if deltas == [] then []
    else Of(Front(deltas), index) + if IndexOfDelta(Last(deltas)) == index then [Last(deltas)] else []
  }

  function LastId(deltas: seq<Delta>): (id: string) {
    if deltas == [] then "" else Or(Last(deltas).id, LastId(Front(deltas)))
  }

  function LastName(deltas: seq<Delta>): (name: string) {
    if deltas == [] then "" else Or(Last(deltas).name, LastName(Front(deltas)))
  }

  function AllArguments(deltas: seq<Delta>): (arguments: string) {
    if deltas == [] then "" else AllArguments(Front(deltas)) + Or(Last(deltas).arguments, "")
  }

  /** One call from its own deltas alone: the last id and name, the arguments one after the other. */
  function CallOf(own: seq<Delta>): (call: ToolCall) {
    ToolCall(LastId(own), LastName(own), AllArguments(own))
  }

  function Summed(own: seq<Delta>): (call: Option<ToolCall>) {
    if own == [] then None else Some(CallOf(own))
  }

  function Entry(byIndex: map<nat, ToolCall>, index: nat): (call: Option<ToolCall>) {
    if index in byIndex then Some(byIndex[index]) else None
  }

  /** Each call is what its own deltas add up to, whatever arrives between them for other calls. */
  lemma {:induction false} CallsAreIndependent(deltas: seq<Delta>, index: nat)
    ensures Entry(ByIndex(deltas), index) == Summed(Of(deltas, index))
  {
    if deltas == [] {
    } else {
      CallsAreIndependent(Front(deltas), index);
      if IndexOfDelta(Last(deltas)) == index {
        var own := Of(Front(deltas), index);
        assert Front(own + [Last(deltas)]) == own;
        assert CallOf([]) == NOTHING;
      } else {
        assert Of(Front(deltas), index) + [] == Of(Front(deltas), index);
      }
    }
  }

  lemma SameEntries(a: map<nat, ToolCall>, b: map<nat, ToolCall>)
    requires forall index: nat :: Entry(a, index) == Entry(b, index)
    ensures a == b
  {
    forall index: nat
      ensures (index in a <==> index in b) && (index in a ==> a[index] == b[index])
    {
      assert Entry(a, index) == Entry(b, index);
    }
  }

  lemma SameCallsIfSums(a: seq<Delta>, b: seq<Delta>)
    requires forall index: nat :: Summed(Of(a, index)) == Summed(Of(b, index))
    ensures ByIndex(a) == ByIndex(b)
  {
    forall index: nat
      ensures Entry(ByIndex(a), index) == Entry(ByIndex(b), index)
    {
      CallsAreIndependent(a, index);
      CallsAreIndependent(b, index);
    }
    SameEntries(ByIndex(a), ByIndex(b));
  }

  lemma SumsIfSameCalls(a: seq<Delta>, b: seq<Delta>, index: nat)
    requires ByIndex(a) == ByIndex(b)
    ensures Summed(Of(a, index)) == Summed(Of(b, index))
  {
    CallsAreIndependent(a, index);
    CallsAreIndependent(b, index);
  }

  ghost predicate SameSums(a: seq<Delta>, b: seq<Delta>) {
    forall index: nat :: Summed(Of(a, index)) == Summed(Of(b, index))
  }

  /** Two arrivals give the same calls exactly when the deltas of each call add up to the same. */
  lemma SameCallsIff(a: seq<Delta>, b: seq<Delta>)
    ensures ByIndex(a) == ByIndex(b) <==> SameSums(a, b)
  {
    if ByIndex(a) == ByIndex(b) {
      forall index: nat
        ensures Summed(Of(a, index)) == Summed(Of(b, index))
      {
        SumsIfSameCalls(a, b, index);
      }
    } else if SameSums(a, b) {
      SameCallsIfSums(a, b);
      assert false;
    }
  }

  /** How the deltas of different calls interleave makes no difference. */
  lemma InterleavingIsIrrelevant(a: seq<Delta>, b: seq<Delta>)
    requires forall index: nat :: Of(a, index) == Of(b, index)
    ensures InOrder(ByIndex(a)) == InOrder(ByIndex(b))
  {
    SameCallsIff(a, b);
  }

  lemma {:induction false} ByIndexOnward(a: seq<Delta>, b: seq<Delta>, rest: seq<Delta>)
    requires ByIndex(a) == ByIndex(b)
    ensures ByIndex(a + rest) == ByIndex(b + rest)
  {
    if rest == [] {
      assert a + [] == a && b + [] == b;
    } else {
      var before, d := Front(rest), Last(rest);
      assert a + rest == a + before + [d] && b + rest == b + before + [d];
      ByIndexOnward(a, b, before);
      AddNext(a + before, d);
      AddNext(b + before, d);
    }
  }

  /** The rest of a delta whose arguments were cut. */
  function Rest(d: Delta, tail: string): (rest: Delta) {
    Delta(d.index, None, None, Some(tail))
  }

  lemma MergeInTwo(existing: ToolCall, d: Delta, head: string, tail: string)
    ensures Merge(Merge(existing, d.(arguments := Some(head))), Rest(d, tail)) ==
      Merge(existing, d.(arguments := Some(head + tail)))
  {
    assert (existing.arguments + head) + tail == existing.arguments + (head + tail);
  }

  lemma AddInTwo(byIndex: map<nat, ToolCall>, d: Delta, head: string, tail: string)
    ensures Add(Add(byIndex, d.(arguments := Some(head))), Rest(d, tail)) ==
      Add(byIndex, d.(arguments := Some(head + tail)))
  {
    MergeInTwo(if IndexOfDelta(d) in byIndex then byIndex[IndexOfDelta(d)] else NOTHING, d, head, tail);
  }

  /** One delta's arguments may as well arrive in two pieces, at any cut, with anything before and after. */
  lemma ArgumentsMayBeCut(before: seq<Delta>, d: Delta, head: string, tail: string, after: seq<Delta>)
    ensures ByIndex(before + [d.(arguments := Some(head + tail))] + after) ==
      ByIndex(before + [d.(arguments := Some(head))] + [Rest(d, tail)] + after)
  {
    var whole, first := d.(arguments := Some(head + tail)), d.(arguments := Some(head));
    AddNext(before, whole);
    AddNext(before, first);
    AddNext(before + [first], Rest(d, tail));
    AddInTwo(ByIndex(before), d, head, tail);
    ByIndexOnward(before + [whole], before + [first] + [Rest(d, tail)], after);
  }

  /** A delta that names no index belongs to call 0. */
  lemma NoIndexIsZero(deltas: seq<Delta>, d: Delta)
    requires d.index.None?
    ensures ByIndex(deltas + [d]) == ByIndex(deltas + [d.(index := Some(0))])
  {
    AddNext(deltas, d);
    AddNext(deltas, d.(index := Some(0)));
  }

  // The bytes between the two sides.

  function DeltasOf(calls: seq<ToolCall>): (deltas: seq<Delta>)
    ensures |deltas| == |calls|
    ensures forall i :: 0 <= i < |calls| ==>
      deltas[i] == Delta(Some(i), Some(calls[i].id), Some(calls[i].name), Some(calls[i].arguments))
  {
    if calls == [] then []
    else
      var c := Last(calls);
      DeltasOf(Front(calls)) + [Delta(Some(|calls| - 1), Some(c.id), Some(c.name), Some(c.arguments))]
  }

  /** What a frame looks like to the client. */
  function View(f: Frame): (chunk: Chunk) {
    match f
    case Content(text) => Chunk(Some(text), [], None)
    case ToolCalls(calls) => Chunk(None, DeltasOf(calls), None)
    case Stop(reason) => Chunk(None, [], Some(reason))
    case _ => SILENT
  }

  function Data(stringify: Frame -> string, f: Frame): (data: string) {
    if f.Done? then "[DONE]" else stringify(f)
  }

  function Line(stringify: Frame -> string, f: Frame): (line: string) {
    if f.KeepAlive? then ": keep-alive" else DATA + (" " + Data(stringify, f))
  }

  function Body(stringify: Frame -> string, frames: seq<Frame>): (body: string) {
    if frames == [] then "" else Body(stringify, Front(frames)) + (Line(stringify, Last(frames)) + "\n\n")
  }

  /** What is assumed of `JSON.stringify` and `JSON.parse`: one line, an object, and it parses back. */
  predicate Faithful(stringify: Frame -> string, parse: string -> Option<Chunk>, f: Frame) {
    var s := stringify(f);
    s != "" && s[0] == '{' && Last(s) == '}' && '\n' !in s && parse(s) == Some(View(f))
  }

  function AllDeltas(frames: seq<Frame>): (deltas: seq<Delta>) {
    if frames == [] then [] else AllDeltas(Front(frames)) + View(Last(frames)).toolCalls
  }

  /** The reason of the last frame that stops the turn. */
  function StopReason(frames: seq<Frame>): (reason: Option<string>) {
    if frames == [] then None
    else if Last(frames).Stop? then Some(Last(frames).reason)
    else StopReason(Front(frames))
  }

  lemma DataParses(parse: string -> Option<Chunk>, line: string, data: string)
    requires line == DATA + (" " + data) && data != "" && !IsSpace(data[0]) && !IsSpace(Last(data))
    ensures Parsed(parse, line) ==
      if data == "[DONE]" || parse(data).None? then SILENT else parse(data).value
  {
    assert line[|DATA|..] == " " + data + "";
    TrimPadded(" ", data, "");
  }

  lemma NotData(parse: string -> Option<Chunk>, line: string)
    requires !(DATA <= line)
    ensures Parsed(parse, line) == SILENT
  {
  }

  lemma LineParses(stringify: Frame -> string, parse: string -> Option<Chunk>, f: Frame)
    requires Faithful(stringify, parse, f)
    ensures Parsed(parse, Line(stringify, f)) == View(f)
  {
    var line := Line(stringify, f);
    if f.KeepAlive? {
      assert line[0] != DATA[0];
      NotData(parse, line);
    } else {
      DataParses(parse, line, Data(stringify, f));
    }
  }

  lemma LineIsOne(stringify: Frame -> string, parse: string -> Option<Chunk>, f: Frame)
    requires Faithful(stringify, parse, f)
    ensures '\n' !in Line(stringify, f)
  {
  }

  /** The finished lines of a body. */
  function LinesOf(stringify: Frame -> string, frames: seq<Frame>): (lines: seq<string>) {
    if frames == [] then [] else LinesOf(stringify, Front(frames)) + [Line(stringify, Last(frames))] + [""]
  }

  lemma SplitFrame(line: string)
    requires '\n' !in line
    ensures Split(line + "\n\n", '\n') == [line] + [""] + [""]
  {
    var s := line + "\n\n";
    assert s[..|line|] == line && s[|line| + 1..] == "\n";
    SplitAt(s, '\n', |line|);
    assert Split("\n", '\n') == [""] + [""];
  }

  lemma GlueBlank(lines: seq<string>, line: string)
    ensures Glue(lines + [""], [line] + [""] + [""]) == lines + [line] + [""] + [""]
  {
    assert Front(lines + [""]) == lines && "" + line == line;
  }

  lemma {:induction false} BodyLines(stringify: Frame -> string, parse: string -> Option<Chunk>, frames: seq<Frame>)
    requires forall f <- frames :: Faithful(stringify, parse, f)
    ensures Split(Body(stringify, frames), '\n') == LinesOf(stringify, frames) + [""]
  {
    if frames == [] {
    } else {
      var before, f := Front(frames), Last(frames);
      assert forall g <- before :: g in frames;
      BodyLines(stringify, parse, before);
      LineIsOne(stringify, parse, f);
      var line := Line(stringify, f);
      SplitFrame(line);
      SplitAppend(Body(stringify, before), line + "\n\n", '\n');
      GlueBlank(LinesOf(stringify, before), line);
    }
  }

  lemma BlankNext(read: string -> Chunk, lines: seq<string>)
    requires read("") == SILENT
    ensures Contents(read, lines + [""]) == Contents(read, lines)
    ensures Deltas(read, lines + [""]) == Deltas(read, lines)
    ensures Reason(read, lines + [""]) == Reason(read, lines)
  {
    LineNext(read, lines, "", SILENT);
    assert Contents(read, lines) + "" == Contents(read, lines);
    assert Deltas(read, lines) + [] == Deltas(read, lines);
  }

  lemma FrameLines(read: string -> Chunk, lines: seq<string>, line: string, chunk: Chunk)
    requires read("") == SILENT && read(line) == chunk
    ensures var more := lines + [line] + [""];
      && Contents(read, more) == Contents(read, lines) + TextOrNothing(chunk)
      && Deltas(read, more) == Deltas(read, lines) + chunk.toolCalls
      && Reason(read, more) == if chunk.finish.Some? then chunk.finish else Reason(read, lines)
  {
    LineNext(read, lines, line, chunk);
    BlankNext(read, lines + [line]);
  }

  predicate ReadsAll(read: string -> Chunk, stringify: Frame -> string, frames: seq<Frame>) {
    read("") == SILENT && forall f <- frames :: read(Line(stringify, f)) == View(f)
  }

  lemma {:induction false} LinesRead(read: string -> Chunk, stringify: Frame -> string, frames: seq<Frame>)
    requires ReadsAll(read, stringify, frames)
    ensures Contents(read, LinesOf(stringify, frames)) == TextOf(frames)
    ensures Deltas(read, LinesOf(stringify, frames)) == AllDeltas(frames)
    ensures Reason(read, LinesOf(stringify, frames)) == StopReason(frames)
  {
    if frames == [] {
    } else {
      var before, f := Front(frames), Last(frames);
      assert f in frames && forall g <- before :: g in frames;
      LinesRead(read, stringify, before);
      FrameLines(read, LinesOf(stringify, before), Line(stringify, f), View(f));
    }
  }

  lemma FaithfulReads(stringify: Frame -> string, parse: string -> Option<Chunk>, frames: seq<Frame>)
    requires forall f <- frames :: Faithful(stringify, parse, f)
    ensures ReadsAll(Reader(parse), stringify, frames)
  {
    NotData(parse, "");
    forall f <- frames
      ensures Parsed(parse, Line(stringify, f)) == View(f)
    {
      LineParses(stringify, parse, f);
    }
  }

  /** Whatever frames the server writes, the client reads their text and their tool-call deltas back. */
  lemma BodyReadsBack(stringify: Frame -> string, parse: string -> Option<Chunk>, frames: seq<Frame>)
    requires forall f <- frames :: Faithful(stringify, parse, f)
    ensures var lines := Split(Body(stringify, frames), '\n');
      && Contents(Reader(parse), lines) == TextOf(frames) && Deltas(Reader(parse), lines) == AllDeltas(frames)
      && Reason(Reader(parse), lines) == StopReason(frames)
  {
    FaithfulReads(stringify, parse, frames);
    BodyLines(stringify, parse, frames);
    BlankNext(Reader(parse), LinesOf(stringify, frames));
    LinesRead(Reader(parse), stringify, frames);
  }

  lemma {:induction false} NoDeltas(frames: seq<Frame>)
    requires Unfinished(frames)
    ensures AllDeltas(frames) == []
  {
    if frames == [] {
    } else {
      NoDeltas(Front(frames));
    }
  }

  lemma DeltasNext(frames: seq<Frame>, f: Frame)
    ensures AllDeltas(frames + [f]) == AllDeltas(frames) + View(f).toolCalls
  {
    assert Front(frames + [f]) == frames;
  }

  lemma DeltasOfStopped(frames: seq<Frame>, reason: string)
    ensures AllDeltas(frames + [Stop(reason)] + [Done]) == AllDeltas(frames)
  {
    DeltasNext(frames, Stop(reason));
    DeltasNext(frames + [Stop(reason)], Done);
  }

  lemma DeltasOfClosed(frames: seq<Frame>, ending: Ending)
    requires Unfinished(frames)
    ensures AllDeltas(Closed(frames, ending)) == DeltasOf(if ending.Asked? then ending.calls else [])
  {
    NoDeltas(frames);
    if ending.Answered? {
      DeltasOfStopped(frames, "stop");
    } else {
      DeltasNext(frames, ToolCalls(ending.calls));
      DeltasOfStopped(frames + [ToolCalls(ending.calls)], "tool_calls");
    }
  }

  lemma WholeCall(c: ToolCall, d: Delta)
    requires d.id == Some(c.id) && d.name == Some(c.name) && d.arguments == Some(c.arguments)
    ensures Merge(NOTHING, d) == c
  {
    assert "" + c.arguments == c.arguments;
  }

  lemma StopReasonOfClosed(frames: seq<Frame>, ending: Ending)
    ensures StopReason(Closed(frames, ending)) == Some(if ending.Asked? then "tool_calls" else "stop")
  {
    var body := if ending.Asked? then frames + [ToolCalls(ending.calls)] else frames;
    var reason := if ending.Asked? then "tool_calls" else "stop";
    assert Front(body + [Stop(reason)] + [Done]) == body + [Stop(reason)];
  }

  lemma {:induction false} CallsByIndex(calls: seq<ToolCall>)
    ensures ByIndex(DeltasOf(calls)) == map i | 0 <= i < |calls| :: calls[i]
  {
    if calls == [] {
    } else {
      var before, deltas := Front(calls), DeltasOf(Front(calls));
      CallsByIndex(before);
      var c, d := Last(calls), Last(DeltasOf(calls));
      assert DeltasOf(calls) == deltas + [d];
      AddNext(deltas, d);
      WholeCall(c, d);
      assert Add(ByIndex(deltas), d) == ByIndex(deltas)[|before| := c];
    }
  }

  lemma {:induction false} AscendingRange(keys: set<nat>, n: nat)
    requires forall k :: k in keys <==> 0 <= k < n
    ensures |Ascending(keys)| == n && forall i :: 0 <= i < n ==> Ascending(keys)[i] == i
  {
    if n == 0 {
    } else {
      assert n - 1 in keys;
      assert Max(keys) == n - 1;
      AscendingRange(keys - {n - 1}, n - 1);
    }
  }

  lemma CallsInOrder(calls: seq<ToolCall>)
    ensures InOrder(ByIndex(DeltasOf(calls))) == calls
  {
    CallsByIndex(calls);
    AscendingRange(ByIndex(DeltasOf(calls)).Keys, |calls|);
  }

  /**
   * A whole turn from the server to the client: the client reads the pieces joined, which are word for word what was
   * said, exactly the tool calls the turn asked for, in their order, none for a turn that answered, and the reason that
   * tells which of the two it was.
   */
  method Converse(
    events: seq<Event>, ending: Ending, stringify: Frame -> string, parse: string -> Option<Chunk>
  ) returns (text: string, calls: seq<ToolCall>, reason: Option<string>)
    requires forall f :: Faithful(stringify, parse, f)
    ensures text == Joined(Pieces(events, ending)) && Words(text) == WordsOfAll(Pieces(events, ending))
    ensures calls == if ending.Asked? then ending.calls else []
    ensures reason == Some(if ending.Asked? then "tool_calls" else "stop")
  {
    var frames := Respond(events, ending);
    BodyReadsBack(stringify, parse, frames);
    WordsSurvive(Pieces(events, ending));
    ghost var body :| frames == Closed(body, ending) && Unfinished(body);
    DeltasOfClosed(body, ending);
    CallsInOrder(if ending.Asked? then ending.calls else []);
    text := AssembleSseContent(parse, Body(stringify, frames));
    calls := AssembleSseToolCalls(parse, Body(stringify, frames));
    StopReasonOfClosed(body, ending);
    reason := SseFinishReason(parse, Body(stringify, frames));
  }
}
