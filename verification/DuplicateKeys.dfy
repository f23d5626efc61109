/** The one-pass scanner for keys declared twice at one level of a Helm values file. */
module DuplicateKeys {
  import opened Text

  // One line.

  predicate KeyChar(c: char) {
    'A' <= c <= 'Z' || 'a' <= c <= 'z' || '0' <= c <= '9' || c in "_.-\"'"
  }

  function KeyRun(s: string): (run: string)
    ensures run <= s
    ensures |run| == |s| || !KeyChar(s[|run|])
    ensures forall i :: 0 <= i < |run| ==> KeyChar(run[i])
  {
    if s == "" || !KeyChar(s[0]) then "" else [s[0]] + KeyRun(s[1..])
  }

  /** The key of a `key:` line: `/^([A-Za-z0-9_.\-"']+)\s*:(\s|$)/`, on a trimmed line that is no list item. */
  function KeyOf(line: string): (key: Option<string>) {
    var run := KeyRun(line);
    var rest := TrimStart(line[|run|..]);
    if "- " <= line || run == "" || rest == "" || rest[0] != ':' then None
    else if |rest| > 1 && !IsSpace(rest[1]) then None
    else Some(run)
  }

  function DropIndicators(s: string): (t: string)
    ensures t <= s
  {
    if s != "" && Last(s) in "-+0123456789" then DropIndicators(Front(s)) else s
  }

  predicate EndsInColon(s: string) {
    s != "" && Last(s) == ':'
  }

  predicate MarkAfterColon(s: string) {
    s != "" && Last(s) in "|>" && EndsInColon(TrimEnd(Front(s)))
  }

  /** A trailing `|` or `>` after a colon starts a block scalar: `/:\s*[|>][-+0-9]*\s*$/`, read from the end. */
  predicate OpensBlock(line: string) {
    MarkAfterColon(DropIndicators(TrimEnd(line)))
  }

  /** `- ` or a lone `-`. */
  predicate IsItem(line: string) {
    "- " <= line || line == "-"
  }

  /** `item` is no part of what the scanner decides by: an item is a line without a key to it. */
  datatype Line = Line(indent: nat, blank: bool, key: Option<string>, opens: bool, item: bool)

  function Read(raw: string): (l: Line)
    ensures l.blank ==> l.key.None?
  {
    var line := Trim(raw);
    Line(|raw| - |TrimStart(raw)|, line == "", KeyOf(line), OpensBlock(line), IsItem(line))
  }

  // The two regular expressions, and the indentation, by what they mean.

  /** Letters, digits, dots, dashes, underscores and quotes make keys, their neighbours among the characters do not. */
  lemma KeyCharsAre()
    ensures KeyChar('A') && KeyChar('Z') && KeyChar('a') && KeyChar('z') && KeyChar('0') && KeyChar('9')
    ensures KeyChar('.') && KeyChar('-') && KeyChar('_') && KeyChar('"') && KeyChar('\'')
    ensures !KeyChar('@') && !KeyChar('[') && !KeyChar('`') && !KeyChar('{') && !KeyChar('/') && !KeyChar(':')
    ensures !KeyChar(' ') && !KeyChar('#') && !KeyChar(',') && !KeyChar('+')
  {
  }

  predicate IsKeyName(key: string) {
    key != "" && forall i :: 0 <= i < |key| ==> KeyChar(key[i])
  }

  /** `^key\s*:(\s|$)`. */
  ghost predicate IsKeyLine(line: string, key: string) {
    IsKeyName(key) && exists blanks: string, rest: string ::
      AllSpace(blanks) && (rest == "" || IsSpace(rest[0])) && line == key + (blanks + (":" + rest))
  }

  lemma RunOfKey(line: string, key: string, tail: string)
    requires IsKeyName(key) && line == key + tail && tail != "" && !KeyChar(tail[0])
    ensures KeyRun(line) == key
  {
    assert forall i :: 0 <= i < |key| ==> line[i] == key[i];
    assert line[|key|] == tail[0];
    var run := KeyRun(line);
    assert |run| == |key|;
    assert run == line[..|key|] == key;
  }

  lemma BlanksAreNoKeyChars(c: char)
    requires IsSpace(c) || c == ':'
    ensures !KeyChar(c)
  {
  }

  lemma KeyOfKeyLine(line: string, key: string, blanks: string, rest: string)
    requires IsKeyName(key) && AllSpace(blanks) && (rest == "" || IsSpace(rest[0]))
    requires line == key + (blanks + (":" + rest)) && !("- " <= line)
    ensures KeyOf(line) == Some(key)
  {
    var tail := blanks + (":" + rest);
    BlanksAreNoKeyChars(tail[0]);
    RunOfKey(line, key, tail);
    assert line[|key|..] == tail;
    TrimStartPadded(blanks, ":" + rest);
  }

  lemma KeyLine(line: string, key: string, blanks: string, rest: string)
    requires IsKeyName(key) && AllSpace(blanks) && (rest == "" || IsSpace(rest[0]))
    requires line == key + (blanks + (":" + rest))
    ensures IsKeyLine(line, key)
  {
  }

  lemma KeyLineOfKey(line: string, key: string)
    requires KeyOf(line) == Some(key)
    ensures IsKeyLine(line, key)
  {
    assert key == KeyRun(line);
    var tail := line[|key|..];
    var after := TrimStart(tail);
    TrimStartDropsBlanks(tail);
    assert line == key + tail && after == ":" + after[1..];
    KeyLine(line, key, LeadingBlanks(tail), after[1..]);
  }

  /** A line declares `key` exactly if the expression matches it and it is no list item. */
  lemma KeyOfIff(line: string, key: string)
    ensures KeyOf(line) == Some(key) <==> !("- " <= line) && IsKeyLine(line, key)
  {
    if KeyOf(line) == Some(key) {
      KeyLineOfKey(line, key);
    }
    if !("- " <= line) && IsKeyLine(line, key) {
      var blanks: string, rest: string :|
        AllSpace(blanks) && (rest == "" || IsSpace(rest[0])) && line == key + (blanks + (":" + rest));
      KeyOfKeyLine(line, key, blanks, rest);
    }
  }

  predicate AllIndicators(s: string) {
    forall i :: 0 <= i < |s| ==> s[i] in "-+0123456789"
  }

  /** `:\s*[|>][-+0-9]*\s*$`. */
  ghost predicate EndsInBlockMark(line: string) {
    exists head: string, b1: string, mark: char, indicators: string, b2: string ::
      && AllSpace(b1) && AllSpace(b2) && mark in "|>" && AllIndicators(indicators)
      && line == head + ":" + b1 + [mark] + indicators + b2
  }

  lemma {:induction false} IndicatorsDrop(head: string, indicators: string)
    requires AllIndicators(indicators) && (head == "" || Last(head) !in "-+0123456789")
    ensures DropIndicators(head + indicators) == head
    decreases |indicators|
  {
    if indicators == "" {
      assert head + indicators == head;
    } else {
      assert Front(head + indicators) == head + Front(indicators) && Last(head + indicators) == Last(indicators);
      IndicatorsDrop(head, Front(indicators));
    }
  }

  lemma {:induction false} DroppedAreIndicators(s: string)
    ensures AllIndicators(s[|DropIndicators(s)|..])
  {
    if s != "" && Last(s) in "-+0123456789" {
      DroppedAreIndicators(Front(s));
      assert s[|DropIndicators(s)|..] == Front(s)[|DropIndicators(s)|..] + [Last(s)];
    }
  }

  lemma BlockMarkOpens(line: string, head: string, b1: string, mark: char, indicators: string, b2: string)
    requires AllSpace(b1) && AllSpace(b2) && mark in "|>" && AllIndicators(indicators)
    requires line == head + ":" + b1 + [mark] + indicators + b2
    ensures OpensBlock(line)
  {
    var opening := head + ":" + b1 + [mark];
    var core := opening + indicators;
    assert Last(core) == if indicators == "" then mark else Last(indicators);
    TrimEndPadded(core, b2);
    IndicatorsDrop(opening, indicators);
    assert Front(opening) == head + ":" + b1 && Last(opening) == mark;
    TrimEndPadded(head + ":", b1);
  }

  lemma BlockMark(line: string, head: string, b1: string, mark: char, indicators: string, b2: string)
    requires AllSpace(b1) && AllSpace(b2) && mark in "|>" && AllIndicators(indicators)
    requires line == head + ":" + b1 + [mark] + indicators + b2
    ensures EndsInBlockMark(line)
  {
  }

  lemma IndicatorsLast(s: string)
    ensures AllIndicators(s[|DropIndicators(s)|..]) && s == DropIndicators(s) + s[|DropIndicators(s)|..]
  {
    DroppedAreIndicators(s);
  }

  lemma MarkedAfterColon(opening: string) returns (head: string, b1: string)
    requires MarkAfterColon(opening)
    ensures AllSpace(b1) && opening == head + ":" + b1 + [Last(opening)]
  {
    var before := Front(opening);
    TrimEndDropsBlanks(before);
    head, b1 := Front(TrimEnd(before)), TrailingBlanks(before);
    assert TrimEnd(before) == head + ":" && opening == before + [Last(opening)];
  }

  lemma OpeningHasBlockMark(line: string)
    requires OpensBlock(line)
    ensures EndsInBlockMark(line)
  {
    var t := TrimEnd(line);
    var opening := DropIndicators(t);
    TrimEndDropsBlanks(line);
    IndicatorsLast(t);
    var head, b1 := MarkedAfterColon(opening);
    BlockMark(line, head, b1, Last(opening), t[|opening|..], TrailingBlanks(line));
  }

  /** A line opens a block scalar exactly if the expression matches at its end. */
  lemma OpensBlockIff(line: string)
    ensures OpensBlock(line) <==> EndsInBlockMark(line)
  {
    if OpensBlock(line) {
      OpeningHasBlockMark(line);
    }
    if EndsInBlockMark(line) {
      var head: string, b1: string, mark: char, indicators: string, b2: string :|
        && AllSpace(b1) && AllSpace(b2) && mark in "|>" && AllIndicators(indicators)
        && line == head + ":" + b1 + [mark] + indicators + b2;
      BlockMarkOpens(line, head, b1, mark, indicators, b2);
    }
  }

  /** The indentation is the number of leading blanks. */
  lemma IndentIsLeadingBlanks(raw: string)
    ensures var n := Read(raw).indent; n <= |raw| && AllSpace(raw[..n]) && (n == |raw| || !IsSpace(raw[n]))
    ensures Read(raw).blank <==> AllSpace(raw)
  {
    TrimStartDropsBlanks(raw);
    BlankIff(raw);
  }

  // Whole files: which lines declare a key, and which of those declare it again.

  /** Inside a block scalar opened at `indent`. */
  predicate Within(l: Line, indent: nat) {
    l.blank || l.indent > indent
  }

  /** Line `j` opens a block scalar that runs to just before `end`. */
  predicate Covers(lines: seq<Line>, j: nat, end: nat)
    requires j < end <= |lines|
    decreases j, 3
  {
    Structural(lines, j) && lines[j].opens && forall k :: j < k < end ==> Within(lines[k], lines[j].indent)
  }

  /** A block scalar opened before `from` runs to just before `end`. */
  predicate Covered(lines: seq<Line>, from: nat, end: nat)
    requires from <= end <= |lines|
    decreases from, 0
  {
    exists j: nat :: j < from && Covers(lines, j, end)
  }

  predicate InBlock(lines: seq<Line>, i: nat)
    requires i < |lines|
    decreases i, 1
  {
    Covered(lines, i, i + 1)
  }

  predicate Structural(lines: seq<Line>, i: nat)
    requires i < |lines|
    decreases i, 2
  {
    lines[i].key.Some? && !InBlock(lines, i)
  }

  /** Line `j` declares `key`, and up to `end` no structural line closes the map it stands in. */
  predicate Declares(lines: seq<Line>, j: nat, end: nat, indent: nat, key: string)
    requires j < end <= |lines|
  {
    && Structural(lines, j) && lines[j].indent == indent && lines[j].key == Some(key)
    && forall k :: j < k < end && Structural(lines, k) ==> lines[k].indent >= indent
  }

  predicate Declared(lines: seq<Line>, end: nat, indent: nat, key: string)
    requires end <= |lines|
  {
    exists j: nat :: j < end && Declares(lines, j, end, indent, key)
  }

  predicate Duplicate(lines: seq<Line>, i: nat)
    requires i < |lines|
  {
    && Structural(lines, i) && lines[i].indent <= 2
    && Declared(lines, i, lines[i].indent, lines[i].key.value)
  }

  datatype Report = Report(key: string, indent: nat)

  /** The repeated declarations among the first `n` lines, in order. */
  function Duplicates(lines: seq<Line>, n: nat): (reports: seq<Report>)
    requires n <= |lines|
  {
    if n == 0 then []
    else if Duplicate(lines, n - 1) then
      Duplicates(lines, n - 1) + [Report(lines[n - 1].key.value, lines[n - 1].indent)]
    else Duplicates(lines, n - 1)
  }

  /** Block scalars do not nest, so at most one is open. */
  lemma OneBlock(lines: seq<Line>, i: nat, j: nat, end: nat)
    requires i < j < end <= |lines| && Covers(lines, i, end)
    ensures !Covers(lines, j, end)
  {
    assert Covers(lines, i, j + 1);
    assert InBlock(lines, j);
  }

  /** A block scalar takes in the lines after its opener that are blank or deeper, up to the first that is neither. */
  lemma BlockScalarExtent(lines: seq<Line>, i: nat)
    requires i < |lines|
    ensures InBlock(lines, i) <==> exists j: nat ::
      && j < i && Structural(lines, j) && lines[j].opens
      && forall k :: j < k <= i ==> lines[k].blank || lines[k].indent > lines[j].indent
  {
    var end := i + 1;
    assert InBlock(lines, i) <==> Covered(lines, i, end);
    forall j: nat | j < i
      ensures Covers(lines, j, end) <==>
        && Structural(lines, j) && lines[j].opens
        && forall k :: j < k <= i ==> lines[k].blank || lines[k].indent > lines[j].indent
    {
    }
  }

  /** The scanner's block state before line `i`. */
  ghost predicate BlockState(lines: seq<Line>, i: nat, block: Option<nat>)
    requires i <= |lines|
  {
    match block
    case None => !Covered(lines, i, i)
    case Some(indent) => exists j: nat :: j < i && Covers(lines, j, i) && lines[j].indent == indent
  }

  lemma BlockContinues(lines: seq<Line>, i: nat, indent: nat)
    requires i < |lines| && BlockState(lines, i, Some(indent)) && Within(lines[i], indent)
    ensures InBlock(lines, i) && BlockState(lines, i + 1, Some(indent))
  {
    var j: nat :| j < i && Covers(lines, j, i) && lines[j].indent == indent;
    assert Covers(lines, j, i + 1);
  }

  lemma BlockEnds(lines: seq<Line>, i: nat, block: Option<nat>)
    requires i < |lines| && BlockState(lines, i, block)
    requires block.Some? ==> !Within(lines[i], block.value)
    ensures !InBlock(lines, i)
  {
    if InBlock(lines, i) {
      var end := i + 1;
      assert Covered(lines, i, end);
      var k: nat :| k < i && Covers(lines, k, end);
      assert Covers(lines, k, i);
      if block.Some? {
        var j: nat :| j < i && Covers(lines, j, i) && lines[j].indent == block.value;
        if k < j {
          OneBlock(lines, k, j, i);
        } else if j < k {
          OneBlock(lines, j, k, i);
        }
      }
    }
  }

  lemma BlockAfter(lines: seq<Line>, i: nat, end: nat)
    requires i < |lines| && !InBlock(lines, i) && end == i + 1
    ensures BlockState(lines, end, if lines[i].key.Some? && lines[i].opens then Some(lines[i].indent) else None)
  {
    if lines[i].key.Some? && lines[i].opens {
      assert Covers(lines, i, end);
    } else {
      assert !Covered(lines, i, end);
      assert forall j: nat :: j < end && Covers(lines, j, end) ==> j < i;
    }
  }

  ghost predicate SeenState(lines: seq<Line>, i: nat, seen: map<nat, set<string>>)
    requires i <= |lines|
  {
    forall indent: nat, key: string ::
      (indent in seen && key in seen[indent]) <==> (indent <= 2 && Declared(lines, i, indent, key))
  }

  lemma DeclaredNext(lines: seq<Line>, i: nat, end: nat, indent: nat, key: string)
    requires i < |lines| && end == i + 1
    ensures Declared(lines, end, indent, key) <==>
      if !Structural(lines, i) then Declared(lines, i, indent, key)
      else Declares(lines, i, end, indent, key) || (indent <= lines[i].indent && Declared(lines, i, indent, key))
  {
    forall j: nat | j < i
      ensures Declares(lines, j, end, indent, key) <==>
        Declares(lines, j, i, indent, key) && (Structural(lines, i) ==> indent <= lines[i].indent)
    {
    }
  }

  lemma SeenUnchanged(lines: seq<Line>, i: nat, end: nat, seen: map<nat, set<string>>)
    requires i < |lines| && end == i + 1 && SeenState(lines, i, seen) && !Structural(lines, i)
    ensures SeenState(lines, end, seen)
  {
    forall indent: nat, key: string
      ensures Declared(lines, end, indent, key) <==> Declared(lines, i, indent, key)
    {
      DeclaredNext(lines, i, end, indent, key);
    }
  }

  /** What the scanner remembers after a structural line: the deeper maps are closed, its own key is added. */
  function Remember(seen: map<nat, set<string>>, indent: nat, key: string): (after: map<nat, set<string>>) {
    var open := map depth | depth in seen && depth <= indent :: seen[depth];
    var atDepth := if indent in open then open[indent] else {};
    open[indent := if indent <= 2 then atDepth + {key} else atDepth]
  }

  lemma SeenNext(lines: seq<Line>, i: nat, end: nat, seen: map<nat, set<string>>)
    requires i < |lines| && end == i + 1 && SeenState(lines, i, seen) && Structural(lines, i)
    ensures SeenState(lines, end, Remember(seen, lines[i].indent, lines[i].key.value))
  {
    forall indent: nat, key: string
      ensures Declared(lines, end, indent, key) <==>
        (indent == lines[i].indent && Some(key) == lines[i].key)
        || (indent <= lines[i].indent && Declared(lines, i, indent, key))
    {
      DeclaredNext(lines, i, end, indent, key);
    }
  }

  method DuplicatesAmong(lines: seq<Line>) returns (duplicates: seq<Report>)
    requires forall i :: 0 <= i < |lines| && lines[i].blank ==> lines[i].key.None?
    ensures duplicates == Duplicates(lines, |lines|)
  {
    var seen: map<nat, set<string>> := map[];
    duplicates := [];
    var blockScalarIndent: Option<nat> := None;
    for i := 0 to |lines|
      invariant BlockState(lines, i, blockScalarIndent)
      invariant SeenState(lines, i, seen)
      invariant duplicates == Duplicates(lines, i)
    {
      var line := lines[i];
      if blockScalarIndent.Some? {
        if Within(line, blockScalarIndent.value) {
          BlockContinues(lines, i, blockScalarIndent.value);
          SeenUnchanged(lines, i, i + 1, seen);
          continue;
        }
      }
      BlockEnds(lines, i, blockScalarIndent);
      BlockAfter(lines, i, i + 1);
      blockScalarIndent := None;
      if line.blank || line.key.None? {
        SeenUnchanged(lines, i, i + 1, seen);
        continue;
      }
      if line.opens {
        blockScalarIndent := Some(line.indent);
      }
      SeenNext(lines, i, i + 1, seen);
      var indent, key := line.indent, line.key.value;
      assert Duplicate(lines, i) <==> indent <= 2 && indent in seen && key in seen[indent];
      var open := map depth | depth in seen && depth <= indent :: seen[depth];
      var atDepth := if indent in open then open[indent] else {};
      if indent <= 2 {
        if key in atDepth {
          duplicates := duplicates + [Report(key, indent)];
        }
        atDepth := atDepth + {key};
      }
      seen := open[indent := atDepth];
    }
  }

  function MapAll<A, B>(f: A -> B, s: seq<A>): (t: seq<B>)
    ensures |t| == |s| && forall i :: 0 <= i < |s| ==> t[i] == f(s[i])
  {
    seq(|s|, i requires 0 <= i < |s| => f(s[i]))
  }

  function ReadAll(raws: seq<string>): (lines: seq<Line>)
    ensures forall i :: 0 <= i < |lines| && lines[i].blank ==> lines[i].key.None?
  {
    MapAll(Read, raws)
  }

  method DuplicateKeys(yaml: string) returns (duplicates: seq<Report>)
    ensures var lines := ReadAll(Split(yaml, '\n')); duplicates == Duplicates(lines, |lines|)
  {
    duplicates := DuplicatesAmong(ReadAll(Split(yaml, '\n')));
  }

  // What a report means.

  /** The structural line whose map line `i` stands in. */
  predicate IsParent(lines: seq<Line>, p: nat, i: nat)
    requires p < i < |lines|
  {
    && Structural(lines, p) && lines[p].indent < lines[i].indent
    && forall k :: p < k < i && Structural(lines, k) ==> lines[k].indent >= lines[i].indent
  }

  /** Two lines stand in the same map: one parent between them, or none for either. */
  predicate Siblings(lines: seq<Line>, j: nat, i: nat)
    requires j < i < |lines|
  {
    && lines[j].indent == lines[i].indent
    && forall p: nat :: p < i ==> (IsParent(lines, p, i) <==> p < j && IsParent(lines, p, j))
  }

  /** The nearest shallower structural line from `i` back to `j` is a parent. */
  lemma {:induction false} NearestIsParent(lines: seq<Line>, j: nat, k: nat, i: nat)
    requires j < k < i < |lines| && Structural(lines, k) && lines[k].indent < lines[i].indent
    ensures exists p: nat :: k <= p < i && IsParent(lines, p, i)
    decreases i - k
  {
    if m :| k < m < i && Structural(lines, m) && lines[m].indent < lines[i].indent {
      NearestIsParent(lines, j, m, i);
    } else {
      assert IsParent(lines, k, i);
    }
  }

  lemma DeclaresIffSibling(lines: seq<Line>, j: nat, i: nat)
    requires j < i < |lines| && Structural(lines, i) && Structural(lines, j) && lines[j].key == lines[i].key
    ensures Declares(lines, j, i, lines[i].indent, lines[i].key.value) <==> Siblings(lines, j, i)
  {
    if lines[j].indent == lines[i].indent {
      if k :| j < k < i && Structural(lines, k) && lines[k].indent < lines[i].indent {
        NearestIsParent(lines, j, k, i);
      }
    }
  }

  /** A line is reported exactly when an earlier sibling at indentation two or less declares the same key. */
  lemma DuplicatesAreSiblings(lines: seq<Line>, i: nat)
    requires i < |lines|
    ensures Duplicate(lines, i) <==>
      Structural(lines, i) && lines[i].indent <= 2
      && exists j: nat :: j < i && Structural(lines, j) && lines[j].key == lines[i].key && Siblings(lines, j, i)
  {
    if Structural(lines, i) {
      forall j: nat | j < i && Structural(lines, j) && lines[j].key == lines[i].key
        ensures Declares(lines, j, i, lines[i].indent, lines[i].key.value) <==> Siblings(lines, j, i)
      {
        DeclaresIffSibling(lines, j, i);
      }
    }
  }

  lemma {:induction false} ReportedIff(lines: seq<Line>, n: nat)
    requires n <= |lines|
    ensures Duplicates(lines, n) == [] <==> forall i: nat :: i < n ==> !Duplicate(lines, i)
    ensures forall r :: r in Duplicates(lines, n) <==>
      exists i: nat :: i < n && Duplicate(lines, i) && r == Report(lines[i].key.value, lines[i].indent)
  {
    if n == 0 {
    } else {
      ReportedIff(lines, n - 1);
    }
  }

  // List items open no scope of their own in the scanner, as they do in YAML.

  predicate Item(lines: seq<Line>, k: nat)
    requires k < |lines|
  {
    lines[k].item && !InBlock(lines, k)
  }

  /** No list item between `j` and `end` closes a map at `indent`. */
  predicate NoItemCloses(lines: seq<Line>, j: nat, end: nat, indent: nat)
    requires j < end <= |lines|
  {
    forall k :: j < k < end && Item(lines, k) ==> lines[k].indent >= indent
  }

  /** A duplicate when every list item opens a map of its own, which shallower items and keys close. */
  predicate Clash(lines: seq<Line>, i: nat)
    requires i < |lines|
  {
    && Structural(lines, i) && lines[i].indent <= 2
    && exists j: nat :: j < i && Declares(lines, j, i, lines[i].indent, lines[i].key.value)
                        && NoItemCloses(lines, j, i, lines[i].indent)
  }

  /** The last of the first `n` lines that declares `key` at `indent` in a map still open at `end`. */
  function LastDeclaration(lines: seq<Line>, n: nat, end: nat, indent: nat, key: string): (j: Option<nat>)
    requires n <= end <= |lines|
    ensures j.Some? ==> j.value < n && Declares(lines, j.value, end, indent, key)
    ensures forall k: nat :: k < n && Declares(lines, k, end, indent, key) ==> j.Some? && k <= j.value
  {
    if n == 0 then None
    else if Declares(lines, n - 1, end, indent, key) then Some(n - 1)
    else LastDeclaration(lines, n - 1, end, indent, key)
  }

  /**
   * The scanner misses no clash, and it reports a line that is none exactly when a shallower list item stands between
   * the line and the last declaration of its key.
   */
  lemma ClashIffNoItemBetween(lines: seq<Line>, i: nat)
    requires i < |lines|
    ensures Clash(lines, i) <==>
      Duplicate(lines, i)
      && (var last := LastDeclaration(lines, i, i, lines[i].indent, lines[i].key.value);
          last.Some? && NoItemCloses(lines, last.value, i, lines[i].indent))
  {
    if Structural(lines, i) {
      var indent, key := lines[i].indent, lines[i].key.value;
      var last := LastDeclaration(lines, i, i, indent, key);
      forall j: nat | j < i && Declares(lines, j, i, indent, key) && NoItemCloses(lines, j, i, indent)
        ensures last.Some? && NoItemCloses(lines, last.value, i, indent)
      {
        assert j <= last.value;
      }
    }
  }

  /** Two items at indentation 0, each followed by one field of the same key. */
  predicate ReadsAsItems(lines: seq<Line>, key: string) {
    && |lines| == 4
    && (forall i :: 0 <= i < 4 ==> !lines[i].opens)
    && (forall i :: i in {0, 2} ==> lines[i].item && lines[i].indent == 0 && lines[i].key.None?)
    && (forall i :: i in {1, 3} ==> lines[i].indent == 2 && lines[i].key == Some(key))
  }

  lemma ItemsShareScope(lines: seq<Line>, key: string)
    requires ReadsAsItems(lines, key)
    ensures Duplicates(lines, 4) == [Report(key, 2)] && !Clash(lines, 3)
    ensures !Duplicate(lines, 0) && !Duplicate(lines, 1) && !Duplicate(lines, 2)
  {
    forall i: nat, end: nat | i < end <= 4
      ensures !Covers(lines, i, end)
    {
      assert !lines[i].opens;
    }
    assert Structural(lines, 1) && Structural(lines, 3) && !Structural(lines, 0) && !Structural(lines, 2);
    assert Declares(lines, 1, 3, 2, key);
    assert !Declares(lines, 0, 1, 2, key);
    assert !Duplicate(lines, 0) && !Duplicate(lines, 1) && !Duplicate(lines, 2) && Duplicate(lines, 3);
    assert Duplicates(lines, 0) == Duplicates(lines, 1) == Duplicates(lines, 2) == Duplicates(lines, 3) == [];
    assert Item(lines, 2);
  }

  predicate IsPlain(s: string) {
    s != "" && forall i :: 0 <= i < |s| ==> 'a' <= s[i] <= 'z'
  }

  function ItemLine(a: string): (line: string) {
    "- " + a
  }

  function FieldLine(key: string, v: string): (line: string) {
    "  " + (key + ": " + v)
  }

  /** A list of two items `- a`, each with a field `key: v` of its own. */
  function TwoItems(a: string, key: string, v: string): (text: string) {
    var item, field := ItemLine(a), FieldLine(key, v);
    item + "\n" + (field + "\n" + (item + "\n" + field))
  }

  lemma SplitFirst(line: string, rest: string)
    requires '\n' !in line
    ensures Split(line + "\n" + rest, '\n') == [line] + Split(rest, '\n')
  {
    var s := line + "\n" + rest;
    assert s[..|line|] == line && s[|line| + 1..] == rest;
    SplitAt(s, '\n', |line|);
  }

  lemma SplitFour(a: string, b: string, c: string, d: string)
    requires '\n' !in a && '\n' !in b && '\n' !in c && '\n' !in d
    ensures Split(a + "\n" + (b + "\n" + (c + "\n" + d)), '\n') == [a, b, c, d]
  {
    SplitFirst(a, b + "\n" + (c + "\n" + d));
    SplitFirst(b, c + "\n" + d);
    SplitFirst(c, d);
    SplitOne(d, '\n');
  }

  /** A line as read, from its parts. */
  lemma ReadIs(raw: string, indent: nat, line: string, l: Line)
    requires |raw| - |TrimStart(raw)| == indent && Trim(raw) == line
    requires l == Line(indent, line == "", KeyOf(line), OpensBlock(line), IsItem(line))
    ensures Read(raw) == l
  {
  }

  lemma Padded(before: string, line: string)
    requires AllSpace(before) && line != "" && !IsSpace(line[0]) && !IsSpace(Last(line))
    ensures |before + line| - |TrimStart(before + line)| == |before| && Trim(before + line) == line
  {
    TrimStartPadded(before, line);
    TrimPadded(before, line, "");
    assert before + line + "" == before + line;
  }

  lemma LetterOpensNoBlock(line: string)
    requires line != "" && 'a' <= Last(line) <= 'z'
    ensures !OpensBlock(line)
  {
    assert TrimEnd(line) == line && DropIndicators(line) == line;
  }

  lemma KeyOfField(line: string, key: string, v: string)
    requires IsPlain(key) && line == key + ": " + v
    ensures KeyOf(line) == Some(key)
  {
    var run := KeyRun(line);
    assert forall i :: 0 <= i < |key| ==> line[i] == key[i];
    assert line[|key|] == ':' && run == key;
    assert line[|key|..] == ": " + v;
    assert line[0] != '-';
  }

  lemma KeyOfItem(line: string)
    requires "- " <= line
    ensures KeyOf(line).None?
  {
  }

  lemma ReadPadded(before: string, line: string, l: Line)
    requires AllSpace(before) && line != "" && !IsSpace(line[0]) && !IsSpace(Last(line))
    requires l == Line(|before|, false, KeyOf(line), OpensBlock(line), IsItem(line))
    ensures Read(before + line) == l
  {
    Padded(before, line);
    ReadIs(before + line, |before|, line, l);
  }

  lemma ItemReads(a: string)
    requires IsPlain(a)
    ensures Read(ItemLine(a)) == Line(0, false, None, false, true)
  {
    var line := ItemLine(a);
    assert Last(line) == Last(a) && line[..2] == "- ";
    LetterOpensNoBlock(line);
    KeyOfItem(line);
    ReadPadded("", line, Line(0, false, None, false, true));
    assert "" + line == line;
  }

  lemma FieldParts(line: string, key: string, v: string)
    requires IsPlain(key) && IsPlain(v) && line == key + ": " + v
    ensures 'a' <= Last(line) <= 'z' && 'a' <= line[0] <= 'z'
    ensures KeyOf(line) == Some(key) && !OpensBlock(line) && !IsItem(line)
  {
    assert Last(line) == Last(v) && line[0] == key[0];
    LetterOpensNoBlock(line);
    KeyOfField(line, key, v);
  }

  lemma FieldReads(key: string, v: string)
    requires IsPlain(key) && IsPlain(v)
    ensures Read(FieldLine(key, v)) == Line(2, false, Some(key), false, false)
  {
    var line := key + ": " + v;
    FieldParts(line, key, v);
    ReadPadded("  ", line, Line(2, false, Some(key), false, false));
  }

  lemma OneLineEach(a: string, key: string, v: string)
    requires IsPlain(a) && IsPlain(key) && IsPlain(v)
    ensures '\n' !in ItemLine(a) && '\n' !in FieldLine(key, v)
  {
  }

  lemma AnyItemsShareScope(lines: seq<Line>, key: string)
    requires ReadsAsItems(lines, key)
    ensures Duplicates(lines, 4) == [Report(key, 2)] && forall i :: 0 <= i < 4 ==> !Clash(lines, i)
  {
    ItemsShareScope(lines, key);
    forall i | 0 <= i < 4
      ensures !Clash(lines, i)
    {
      assert i != 3 ==> !Duplicate(lines, i);
      ClashIffNoItemBetween(lines, i);
    }
  }

  lemma MappedTwice<A, B>(f: A -> B, x: A, y: A, u: B, v: B)
    requires f(x) == u && f(y) == v
    ensures MapAll(f, [x, y, x, y]) == [u, v, u, v]
  {
  }

  lemma ItemLines(key: string)
    ensures var item, field := Line(0, false, None, false, true), Line(2, false, Some(key), false, false);
      ReadsAsItems([item, field, item, field], key)
  {
  }

  /** Such a list is reported for every choice of words, although no map in it has a key twice. */
  lemma ListItemsShareScope(a: string, key: string, v: string)
    requires IsPlain(a) && IsPlain(key) && IsPlain(v)
    ensures var lines := ReadAll(Split(TwoItems(a, key, v), '\n'));
      && Duplicates(lines, |lines|) == [Report(key, 2)]
      && forall i :: 0 <= i < |lines| ==> !Clash(lines, i)
  {
    var item, field := ItemLine(a), FieldLine(key, v);
    OneLineEach(a, key, v);
    SplitFour(item, field, item, field);
    ItemReads(a);
    FieldReads(key, v);
    MappedTwice(Read, item, field, Line(0, false, None, false, true), Line(2, false, Some(key), false, false));
    ItemLines(key);
    AnyItemsShareScope(ReadAll([item, field, item, field]), key);
  }
}
