/** The session transcript: a growing JSONL file that is re-read whole on every poll. */
module Transcript {
  import opened Text
  import opened Json

  datatype Kind = AgentText | Agent

  datatype Event = Event(kind: Kind, message: string)

  datatype State = State(
    bridgeSessionId: Option<string>,
    finalText: Option<string>,
    turnComplete: bool,
    entryCount: nat,
    events: seq<Event>)

  // What one content block and one entry say.

  function BlockText(block: Json): (text: string) {
    if IsObject(block) && Is(block, "type", "text") then StringField(block, "text") else ""
  }

  function BlockEvents(block: Json): (events: seq<Event>) {
    if BlockText(block) != "" then [Event(AgentText, BlockText(block))]
    else if IsObject(block) && Is(block, "type", "tool_use") && StringField(block, "name") != "" then
      [Event(Agent, "running " + StringField(block, "name"))]
    else []
  }

  /** The content blocks of an assistant entry; none for every other entry. */
  function Content(entry: Json): (blocks: seq<Json>) {
    if !Is(entry, "type", "assistant") then []
    else match Field(entry, "message")
      case Some(message) =>
        (match Field(message, "content")
         case Some(Arr(items)) => items
         case _ => [])
      case None => []
  }

  function BlocksText(blocks: seq<Json>): (text: string) {
    if blocks == [] then "" else BlocksText(Front(blocks)) + BlockText(Last(blocks))
  }

  function BlocksEvents(blocks: seq<Json>): (events: seq<Event>) {
    if blocks == [] then [] else BlocksEvents(Front(blocks)) + BlockEvents(Last(blocks))
  }

  predicate EndsTurn(entry: Json) {
    Is(entry, "type", "system") && Is(entry, "subtype", "turn_duration")
  }

  // The simple whole-file form: first the entries, then a summary of the entries.

  function LineEntries(parse: string -> Option<Json>, line: string): (entries: seq<Json>) {
    if Trim(line) == "" then []
    else match parse(line)
      case Some(v) => if IsObject(v) then [v] else []
      case None => []
  }

  function EntriesOf(parse: string -> Option<Json>, lines: seq<string>): (entries: seq<Json>) {
    if lines == [] then [] else EntriesOf(parse, Front(lines)) + LineEntries(parse, Last(lines))
  }

  function Entries(parse: string -> Option<Json>, raw: string): (entries: seq<Json>) {
    EntriesOf(parse, Split(raw, '\n'))
  }

  function Events(entries: seq<Json>): (events: seq<Event>) {
    if entries == [] then [] else Events(Front(entries)) + BlocksEvents(Content(Last(entries)))
  }

  /** The last non-empty bridge id. */
  function Bridge(entries: seq<Json>): (id: Option<string>) {
    if entries == [] then None
    else if StringField(Last(entries), "bridgeSessionId") != "" then Some(StringField(Last(entries), "bridgeSessionId"))
    else Bridge(Front(entries))
  }

  /** The last entry's text that is not empty. */
  function FinalText(entries: seq<Json>): (text: Option<string>) {
    if entries == [] then None
    else if BlocksText(Content(Last(entries))) != "" then Some(BlocksText(Content(Last(entries))))
    else FinalText(Front(entries))
  }

  function Summary(entries: seq<Json>): (st: State) {
    State(Bridge(entries), FinalText(entries), exists e :: e in entries && EndsTurn(e), |entries|, Events(entries))
  }

  lemma SummaryNext(entries: seq<Json>, entry: Json)
    ensures var s, t := Summary(entries), Summary(entries + [entry]);
      var bridge, text := StringField(entry, "bridgeSessionId"), BlocksText(Content(entry));
      && t.bridgeSessionId == (if bridge != "" then Some(bridge) else s.bridgeSessionId)
      && t.finalText == (if text != "" then Some(text) else s.finalText)
      && t.turnComplete == (s.turnComplete || EndsTurn(entry))
      && t.entryCount == s.entryCount + 1
      && t.events == s.events + BlocksEvents(Content(entry))
  {
    assert Front(entries + [entry]) == entries;
    assert forall e :: e in entries + [entry] <==> e in entries || e == entry;
  }

  lemma EntriesNext(parse: string -> Option<Json>, lines: seq<string>, i: nat)
    requires i < |lines|
    ensures EntriesOf(parse, lines[..i + 1]) == EntriesOf(parse, lines[..i]) + LineEntries(parse, lines[i])
  {
    assert Front(lines[..i + 1]) == lines[..i];
  }

  method ReadBlocks(blocks: seq<Json>) returns (text: string, events: seq<Event>)
    ensures text == BlocksText(blocks) && events == BlocksEvents(blocks)
  {
    text, events := "", [];
    for i := 0 to |blocks|
      invariant text == BlocksText(blocks[..i]) && events == BlocksEvents(blocks[..i])
    {
      assert Front(blocks[..i + 1]) == blocks[..i];
      var block := blocks[i];
      if IsObject(block) {
        var said := StringField(block, "text");
        var name := StringField(block, "name");
        if Is(block, "type", "text") && said != "" {
          text := text + said;
          events := events + [Event(AgentText, said)];
        } else if Is(block, "type", "tool_use") && name != "" {
          events := events + [Event(Agent, "running " + name)];
        }
      }
    }
    assert blocks[..|blocks|] == blocks;
  }

  method AddEntry(st: State, entry: Json) returns (next: State)
    ensures forall entries :: st == Summary(entries) ==> next == Summary(entries + [entry])
  {
    next := st.(entryCount := st.entryCount + 1);
    var bridge := StringField(entry, "bridgeSessionId");
    if bridge != "" {
      next := next.(bridgeSessionId := Some(bridge));
    }
    if EndsTurn(entry) {
      next := next.(turnComplete := true);
    }
    var text, narrated := ReadBlocks(Content(entry));
    next := next.(events := next.events + narrated);
    if text != "" {
      next := next.(finalText := Some(text));
    }
    forall entries | st == Summary(entries) ensures next == Summary(entries + [entry]) {
      SummaryNext(entries, entry);
    }
  }

  method ParseTranscript(parse: string -> Option<Json>, raw: string) returns (st: State)
    ensures st == Summary(Entries(parse, raw))
  {
    st := State(None, None, false, 0, []);
    ghost var entries: seq<Json> := [];
    var lines := Split(raw, '\n');
    for i := 0 to |lines|
      invariant entries == EntriesOf(parse, lines[..i])
      invariant st == Summary(entries)
    {
      var line := lines[i];
      EntriesNext(parse, lines, i);
      if Trim(line) != "" {
        var entry := parse(line);
        if entry.Some? && IsObject(entry.value) {
          SummaryNext(entries, entry.value);
          entries := entries + [entry.value];
          st := AddEntry(st, entry.value);
        }
      }
    }
    assert lines[..|lines|] == lines;
  }

  // What an entry contributes, over its JSON fields.

  predicate HasText(v: Json, key: string, text: string) {
    Field(v, key) == Some(Str(text))
  }

  /** A line is an entry exactly if it is not blank and parses to an object or an array. */
  lemma EntryLineIff(parse: string -> Option<Json>, line: string, v: Json)
    ensures LineEntries(parse, line) == [v] <==> !AllSpace(line) && parse(line) == Some(v) && (v.Obj? || v.Arr?)
    ensures LineEntries(parse, line) == [] <==>
      AllSpace(line) || parse(line).None? || (!parse(line).value.Obj? && !parse(line).value.Arr?)
  {
    BlankIff(line);
  }

  /** An entry of another type than `assistant` adds no event and leaves the final text alone. */
  lemma OnlyAssistantsSpeak(entries: seq<Json>, entry: Json)
    requires !HasText(entry, "type", "assistant")
    ensures Summary(entries + [entry]).events == Summary(entries).events
    ensures Summary(entries + [entry]).finalText == Summary(entries).finalText
  {
    SummaryNext(entries, entry);
    assert Summary(entries).events + [] == Summary(entries).events;
  }

  /** An assistant's entry adds what its content blocks say, and its text, if it has any, is the final one. */
  lemma AssistantSpeaks(entries: seq<Json>, entry: Json, message: Json, blocks: seq<Json>)
    requires HasText(entry, "type", "assistant")
    requires Field(entry, "message") == Some(message) && Field(message, "content") == Some(Arr(blocks))
    ensures var s, t := Summary(entries), Summary(entries + [entry]);
      && t.events == s.events + BlocksEvents(blocks)
      && t.finalText == if BlocksText(blocks) == "" then s.finalText else Some(BlocksText(blocks))
  {
    SummaryNext(entries, entry);
  }

  /** One without a list of blocks adds nothing either. */
  lemma NoBlocksNoSpeech(entries: seq<Json>, entry: Json)
    requires forall message: Json, blocks: seq<Json> ::
      Field(entry, "message") == Some(message) ==> Field(message, "content") != Some(Arr(blocks))
    ensures Summary(entries + [entry]).events == Summary(entries).events
    ensures Summary(entries + [entry]).finalText == Summary(entries).finalText
  {
    SummaryNext(entries, entry);
    assert Content(entry) == [];
    assert Summary(entries).events + [] == Summary(entries).events;
  }

  lemma BlocksNext(blocks: seq<Json>, block: Json)
    ensures BlocksEvents(blocks + [block]) == BlocksEvents(blocks) + BlockEvents(block)
    ensures BlocksText(blocks + [block]) == BlocksText(blocks) + BlockText(block)
  {
    assert Front(blocks + [block]) == blocks;
  }

  /** A text block is narrated as such and is part of the entry's text, unless it is empty. */
  lemma TextBlockSays(blocks: seq<Json>, block: Json, said: string)
    requires HasText(block, "type", "text") && HasText(block, "text", said)
    ensures BlocksText(blocks + [block]) == BlocksText(blocks) + said
    ensures BlocksEvents(blocks + [block]) == if said == "" then BlocksEvents(blocks) else BlocksEvents(blocks) + [Event(AgentText, said)]
  {
    BlocksNext(blocks, block);
    assert !HasText(block, "type", "tool_use");
    assert BlocksEvents(blocks) + [] == BlocksEvents(blocks);
  }

  /** A tool call is narrated as running that tool and is no part of the text. */
  lemma ToolBlockRuns(blocks: seq<Json>, block: Json, name: string)
    requires HasText(block, "type", "tool_use") && HasText(block, "name", name)
    ensures BlocksText(blocks + [block]) == BlocksText(blocks)
    ensures BlocksEvents(blocks + [block]) ==
      if name == "" then BlocksEvents(blocks) else BlocksEvents(blocks) + [Event(Agent, "running " + name)]
  {
    BlocksNext(blocks, block);
    assert !HasText(block, "type", "text");
    assert BlocksText(blocks) + "" == BlocksText(blocks);
    assert BlocksEvents(blocks) + [] == BlocksEvents(blocks);
  }

  /** Any other block says nothing. */
  lemma OtherBlocksAreSilent(blocks: seq<Json>, block: Json)
    requires !HasText(block, "type", "text") && !HasText(block, "type", "tool_use")
    ensures BlocksText(blocks + [block]) == BlocksText(blocks) && BlocksEvents(blocks + [block]) == BlocksEvents(blocks)
  {
    BlocksNext(blocks, block);
    assert BlocksText(blocks) + "" == BlocksText(blocks);
    assert BlocksEvents(blocks) + [] == BlocksEvents(blocks);
  }

  /** The turn is complete exactly if some entry is the system's `turn_duration`. */
  lemma CompleteIff(entries: seq<Json>)
    ensures Summary(entries).turnComplete <==>
      exists e <- entries :: HasText(e, "type", "system") && HasText(e, "subtype", "turn_duration")
    ensures Summary(entries).entryCount == |entries|
  {
    assert forall e :: EndsTurn(e) <==> HasText(e, "type", "system") && HasText(e, "subtype", "turn_duration");
  }

  /** The bridge id is the last one that is a text and not empty. */
  lemma BridgeIsLast(entries: seq<Json>, entry: Json, id: string)
    ensures HasText(entry, "bridgeSessionId", id) && id != "" ==> Summary(entries + [entry]).bridgeSessionId == Some(id)
    ensures (forall other: string :: other != "" ==> !HasText(entry, "bridgeSessionId", other)) ==>
      Summary(entries + [entry]).bridgeSessionId == Summary(entries).bridgeSessionId
  {
    SummaryNext(entries, entry);
    var bridge := StringField(entry, "bridgeSessionId");
    assert bridge != "" ==> HasText(entry, "bridgeSessionId", bridge);
  }

  // Growth: a later read of the same file, the earlier read possibly torn inside its last line.

  /** The line of `b` that the last, possibly unfinished, line of its prefix `a` became. */
  function FinishedLine(a: string, b: string): (line: string)
    requires a <= b
  {
    Last(Split(a, '\n')) + Split(b[|a|..], '\n')[0]
  }

  /** `b` extends `a`, and an unfinished last line of `a` that already reads as an entry is not changed by the rest of it. */
  ghost predicate Grows(parse: string -> Option<Json>, a: string, b: string) {
    && a <= b
    && var torn := LineEntries(parse, Last(Split(a, '\n')));
       (torn == [] || LineEntries(parse, FinishedLine(a, b)) == torn)
  }

  /**
   * What JSON has: once a text reads as an object, only blanks can follow in a longer text that does, and every text in
   * between reads as the same object.
   */
  ghost predicate ObjectsEndOnce(parse: string -> Option<Json>) {
    forall p: string, m: string, q: string ::
      p <= m && m <= q && LineEntries(parse, p) != [] && LineEntries(parse, q) != [] ==>
        LineEntries(parse, m) == LineEntries(parse, p)
  }

  /** A transcript as it ends up: every line is blank or an object. */
  predicate IsObjectLog(parse: string -> Option<Json>, file: string) {
    forall line <- Split(file, '\n') :: AllSpace(line) || LineEntries(parse, line) != []
  }

  lemma FirstLineGrows(a: string, b: string)
    requires a <= b
    ensures Split(a, '\n')[0] <= Split(b, '\n')[0]
  {
    var rest := b[|a|..];
    assert b == a + rest;
    SplitAppend(a, rest, '\n');
  }

  lemma FinishedLineIsALine(a: string, b: string)
    requires a <= b
    ensures FinishedLine(a, b) in Split(b, '\n')
  {
    var rest := b[|a|..];
    assert b == a + rest;
    SplitAppend(a, rest, '\n');
    assert Split(b, '\n')[|Split(a, '\n')| - 1] == FinishedLine(a, b);
  }

  lemma PieceIsNotBlank(piece: string, line: string)
    requires piece <= line && Trim(piece) != ""
    ensures !AllSpace(line)
  {
    BlankIff(piece);
    var i :| 0 <= i < |piece| && !IsSpace(piece[i]);
    assert line[i] == piece[i];
  }

  /** Any two reads of one such file, the later at least as long, are a growth, wherever either of them is torn. */
  lemma ReadsOfOneFileGrow(parse: string -> Option<Json>, file: string, a: string, b: string)
    requires ObjectsEndOnce(parse) && IsObjectLog(parse, file)
    requires a <= b && b <= file
    ensures Grows(parse, a, b)
  {
    var torn, finished, line := Last(Split(a, '\n')), FinishedLine(a, b), FinishedLine(a, file);
    FinishedLineIsALine(a, file);
    assert b[|a|..] <= file[|a|..];
    FirstLineGrows(b[|a|..], file[|a|..]);
    assert torn <= finished && finished <= line;
    if LineEntries(parse, torn) != [] {
      PieceIsNotBlank(torn, line);
      assert LineEntries(parse, line) != [];
    }
  }

  lemma {:induction false} EntriesOfPrefix(parse: string -> Option<Json>, a: seq<string>, b: seq<string>)
    ensures EntriesOf(parse, a) <= EntriesOf(parse, a + b)
    decreases |b|
  {
    if b == [] {
      assert a + b == a;
    } else {
      assert Front(a + b) == a + Front(b);
      EntriesOfPrefix(parse, a, Front(b));
    }
  }

  lemma EntriesGrow(parse: string -> Option<Json>, a: string, b: string)
    requires Grows(parse, a, b)
    ensures Entries(parse, a) <= Entries(parse, b)
  {
    var c := b[|a|..];
    assert b == a + c;
    SplitAppend(a, c, '\n');
    var done, line, more := Front(Split(a, '\n')), FinishedLine(a, b), Split(c, '\n')[1..];
    assert Split(b, '\n') == done + [line] + more;
    EntriesOfPrefix(parse, done + [line], more);
    assert Front(done + [line]) == done;
  }

  lemma {:induction false} EventsPrefix(a: seq<Json>, b: seq<Json>)
    requires a <= b
    ensures Events(a) <= Events(b)
    decreases |b|
  {
    if |a| < |b| {
      assert a <= Front(b);
      EventsPrefix(a, Front(b));
    } else {
      assert a == b;
    }
  }

  lemma {:induction false} BridgeStays(a: seq<Json>, b: seq<Json>)
    requires a <= b && Bridge(a).Some?
    ensures Bridge(b).Some?
    decreases |b|
  {
    if |a| < |b| {
      assert a <= Front(b);
      BridgeStays(a, Front(b));
    } else {
      assert a == b;
    }
  }

  /** Reading a grown file never takes anything back. */
  lemma SummaryGrows(parse: string -> Option<Json>, a: string, b: string)
    requires Grows(parse, a, b)
    ensures var s, t := Summary(Entries(parse, a)), Summary(Entries(parse, b));
      && s.events <= t.events
      && s.entryCount <= t.entryCount
      && (s.turnComplete ==> t.turnComplete)
      && (s.bridgeSessionId.Some? ==> t.bridgeSessionId.Some?)
  {
    EntriesGrow(parse, a, b);
    var x, y := Entries(parse, a), Entries(parse, b);
    EventsPrefix(x, y);
    if Bridge(x).Some? {
      BridgeStays(x, y);
    }
    assert forall e :: e in x ==> e in y;
  }
}
