/** The continuation wrapper around a goal, written by the orchestrator and stripped by either program. */
module Continuation {
  import opened Text
  import Sessions

  datatype Extraction = Extraction(token: Option<string>, text: string)

  const OPEN := "<!--"
  const WORD := "continuation:"
  const CLOSE := "-->"

  function Prepend(token: string, text: string): (wrapped: string) {
    "<!-- continuation: " + token + " -->\n\n" + text
  }

  // The marker regular expression, piece by piece. Its greedy `\s*` never needs to give a blank back, because
  // what follows each of them does not start with one.

  /** `continuation:\s*`, the keyword in any case: what follows it. */
  function AfterKeyword(s: string): (rest: Option<string>) {
    if |s| < |WORD| || Lower(s[..|WORD|]) != WORD then None else Some(TrimStart(s[|WORD|..]))
  }

  /** `<!--\s*continuation:\s*`: what follows it. */
  function Body(text: string): (body: Option<string>) {
    if !(OPEN <= text) then None else AfterKeyword(TrimStart(text[|OPEN|..]))
  }

  /** `\s*-->` matches here. */
  predicate Closes(s: string) {
    CLOSE <= TrimStart(s)
  }

  /** `([\s\S]*?)\s*-->`: the lazy group grows one character at a time until the rest closes. */
  function LazyEnd(body: string, n: nat): (end: Option<nat>)
    requires n <= |body|
    ensures end.Some? ==> n <= end.value <= |body| && Closes(body[end.value..])
    decreases |body| - n
  {
    if Closes(body[n..]) then Some(n) else if n == |body| then None else LazyEnd(body, n + 1)
  }

  /** `\n*`. */
  function DropNewlines(s: string): (t: string)
    ensures t == "" || t[0] != '\n'
  {
    if s != "" && s[0] == '\n' then DropNewlines(s[1..]) else s
  }

  /** `\r?\n*`. */
  function AfterClose(s: string): (t: string) {
    if s != "" && s[0] == '\r' then DropNewlines(s[1..]) else DropNewlines(s)
  }

  function Stripped(body: string, end: nat): (e: Extraction)
    requires end <= |body| && Closes(body[end..])
  {
    var token := Trim(body[..end]);
    Extraction(if token == "" then None else Some(token), AfterClose(TrimStart(body[end..])[|CLOSE|..]))
  }

  /** What a body leaves of the text once its end is found. */
  function ExtractFrom(body: string, end: Option<nat>, text: string): (e: Extraction)
    requires end.Some? ==> end.value <= |body| && Closes(body[end.value..])
  {
    if end.None? then Extraction(None, text) else Stripped(body, end.value)
  }

  function Extract(text: string): (e: Extraction) {
    var body := Body(text);
    if body.None? then Extraction(None, text) else ExtractFrom(body.value, LazyEnd(body.value, 0), text)
  }

  // Round trip.

  /** Not empty and without surrounding blanks. */
  predicate Trimmed(s: string) {
    s != "" && !IsSpace(s[0]) && !IsSpace(s[|s| - 1])
  }

  predicate CloseAt(s: string, i: nat) {
    i + |CLOSE| <= |s| && s[i..i + |CLOSE|] == CLOSE
  }

  /** `-->` occurs in `s`. */
  predicate HasClose(s: string) {
    exists i: nat :: i < |s| && CloseAt(s, i)
  }

  predicate StartsWithNewline(s: string) {
    s != "" && s[0] == '\n'
  }

  lemma StrippedShape(body: string, end: nat)
    requires end <= |body| && Closes(body[end..])
    ensures var e := Stripped(body, end); (e.token.Some? ==> Trimmed(e.token.value)) && !StartsWithNewline(e.text)
  {
  }

  /** An extracted token is trimmed, and the text it leaves starts with no newline. */
  lemma ExtractionShape(text: string)
    ensures var e := Extract(text); e.token.Some? ==> Trimmed(e.token.value) && !StartsWithNewline(e.text)
  {
    var body := Body(text);
    if body.Some? && LazyEnd(body.value, 0).Some? {
      StrippedShape(body.value, LazyEnd(body.value, 0).value);
    }
  }

  lemma KeywordMatches(rest: string)
    ensures AfterKeyword(WORD + rest) == Some(TrimStart(rest))
  {
    assert (WORD + rest)[..|WORD|] == WORD && (WORD + rest)[|WORD|..] == rest;
    assert Lower(WORD) == WORD;
  }

  lemma BodyAfterKeyword(wrapped: string, rest: string)
    requires wrapped == "<!-- continuation:" + rest
    ensures Body(wrapped) == Some(TrimStart(rest))
  {
    assert wrapped[..|OPEN|] == OPEN && wrapped[|OPEN|..] == " " + (WORD + rest);
    TrimStartPadded(" ", WORD + rest);
    KeywordMatches(rest);
  }

  /** What stands between a token and the end of its text: blanks, the closing mark, the rest. */
  function Closing(blanks: string, rest: string): (s: string) {
    blanks + (CLOSE + rest)
  }

  /** Inside a trimmed token without the closing mark, the lazy group cannot stop. */
  lemma {:induction false} GroupRunsOn(token: string, blanks: string, rest: string, n: nat)
    requires Trimmed(token) && !HasClose(token) && AllSpace(blanks) && n < |token|
    ensures !Closes((token + Closing(blanks, rest))[n..])
    decreases |token| - n
  {
    var s := token + Closing(blanks, rest);
    if IsSpace(token[n]) {
      assert s[n..][1..] == s[n + 1..];
      assert n + 1 < |token|;
      GroupRunsOn(token, blanks, rest, n + 1);
    } else {
      assert TrimStart(s[n..]) == s[n..];
      assert !CloseAt(token, n);
      if n + 3 <= |token| {
        assert s[n..][..3] == token[n..n + 3];
      } else if blanks != "" {
        assert s[n..][|token| - n] == blanks[0];
      } else {
        assert s[n..][2] == CLOSE[n + 2 - |token|] == '-';
      }
    }
  }

  lemma {:induction false} GroupIsToken(token: string, blanks: string, rest: string, n: nat)
    requires Trimmed(token) && !HasClose(token) && AllSpace(blanks) && n <= |token|
    ensures LazyEnd(token + Closing(blanks, rest), n) == Some(|token|)
    decreases |token| - n
  {
    var s := token + Closing(blanks, rest);
    if n < |token| {
      GroupRunsOn(token, blanks, rest, n);
      GroupIsToken(token, blanks, rest, n + 1);
    } else {
      assert s[n..] == Closing(blanks, rest);
      TrimStartPadded(blanks, CLOSE + rest);
    }
  }

  /** A closing mark inside the token stops the group before the token's end. */
  lemma {:induction false} GroupStopsEarly(token: string, tail: string, i: nat, n: nat)
    requires CloseAt(token, i) && n <= i
    ensures var end := LazyEnd(token + " -->" + tail, n); end.Some? && end.value <= i
    decreases i - n
  {
    var s := token + " -->" + tail;
    if n == i {
      assert s[n..][..3] == token[i..i + 3];
      assert !IsSpace(s[n..][0]);
    } else if !Closes(s[n..]) {
      GroupStopsEarly(token, tail, i, n + 1);
    }
  }

  lemma TrimmedBody(token: string, text: string)
    requires Trimmed(token)
    ensures Body(Prepend(token, text)) == Some(token + " -->" + ("\n\n" + text))
  {
    var core := token + " -->" + ("\n\n" + text);
    assert Prepend(token, text) == "<!-- continuation:" + (" " + core);
    TrimStartPadded(" ", core);
    BodyAfterKeyword(Prepend(token, text), " " + core);
  }

  lemma Remainder(token: string, blanks: string, rest: string)
    requires AllSpace(blanks)
    ensures TrimStart((token + Closing(blanks, rest))[|token|..]) == CLOSE + rest
  {
    assert (token + Closing(blanks, rest))[|token|..] == Closing(blanks, rest);
    TrimStartPadded(blanks, CLOSE + rest);
  }

  lemma DropOne(text: string)
    ensures DropNewlines("\n" + text) == DropNewlines(text)
  {
    assert ("\n" + text)[1..] == text;
  }

  lemma DropTwo(text: string)
    ensures AfterClose("\n\n" + text) == DropNewlines(text)
    ensures DropNewlines(text) == text <==> !StartsWithNewline(text)
  {
    var tail := "\n\n" + text;
    assert tail[1..] == "\n" + text;
    DropOne(text);
    DropOne("\n" + text);
    assert tail == "\n" + ("\n" + text);
  }

  lemma TokenPart(token: string, tail: string)
    requires Trimmed(token)
    ensures Trim((token + tail)[..|token|]) == token
  {
    assert (token + tail)[..|token|] == token == "" + token + "";
    TrimPadded("", token, "");
  }

  lemma StrippedToken(token: string, blanks: string, rest: string)
    requires Trimmed(token) && AllSpace(blanks)
    ensures var body := token + Closing(blanks, rest);
      Closes(body[|token|..]) && Stripped(body, |token|) == Extraction(Some(token), AfterClose(rest))
  {
    Remainder(token, blanks, rest);
    assert (CLOSE + rest)[..|CLOSE|] == CLOSE && (CLOSE + rest)[|CLOSE|..] == rest;
    TokenPart(token, Closing(blanks, rest));
  }

  lemma ExtractToken(text: string, token: string, blanks: string, rest: string)
    requires Trimmed(token) && !HasClose(token) && AllSpace(blanks)
    requires Body(text) == Some(token + Closing(blanks, rest))
    ensures Extract(text) == Extraction(Some(token), AfterClose(rest))
  {
    GroupIsToken(token, blanks, rest, 0);
    StrippedToken(token, blanks, rest);
  }

  /** A clean token comes back, and of the text everything but its leading newlines. */
  lemma UnwrapClean(token: string, text: string)
    requires Trimmed(token) && !HasClose(token)
    ensures Extract(Prepend(token, text)) == Extraction(Some(token), DropNewlines(text))
  {
    TrimmedBody(token, text);
    assert token + " -->" + ("\n\n" + text) == token + Closing(" ", "\n\n" + text);
    ExtractToken(Prepend(token, text), token, " ", "\n\n" + text);
    DropTwo(text);
  }

  lemma TrimShortens(s: string)
    ensures |Trim(s)| <= |s|
  {
  }

  lemma StrippedShort(body: string, end: nat)
    requires end <= |body| && Closes(body[end..])
    ensures var token := Stripped(body, end).token; token.Some? ==> |token.value| <= end
  {
    TrimShortens(body[..end]);
  }

  lemma CutShort(body: string, end: nat, text: string)
    requires end <= |body| && Closes(body[end..])
    ensures var token := ExtractFrom(body, Some(end), text).token; token.Some? ==> |token.value| <= end
  {
    StrippedShort(body, end);
  }

  /** A closing mark inside the token cuts it short. */
  lemma UnwrapCut(token: string, text: string)
    requires Trimmed(token) && HasClose(token)
    ensures Extract(Prepend(token, text)).token != Some(token)
  {
    var i: nat :| i < |token| && CloseAt(token, i);
    TrimmedBody(token, text);
    GroupStopsEarly(token, "\n\n" + text, i, 0);
    var body := token + " -->" + ("\n\n" + text);
    CutShort(body, LazyEnd(body, 0).value, Prepend(token, text));
  }

  /**
   * The wrapper round trip for every token and text: stripping returns both unchanged exactly when the token is
   * trimmed and free of the closing mark and the text does not start with a newline.
   */
  lemma ExtractPrepend(token: string, text: string)
    ensures Extract(Prepend(token, text)) == Extraction(Some(token), text) <==>
      Trimmed(token) && !HasClose(token) && !StartsWithNewline(text)
  {
    if Trimmed(token) {
      if HasClose(token) {
        UnwrapCut(token, text);
      } else {
        UnwrapClean(token, text);
        DropTwo(text);
      }
    } else {
      ExtractionShape(Prepend(token, text));
    }
  }

  // Every text, marker or not.

  /** What is left of a text after blanks and the opening of a marker, in any spelling the expression allows. */
  ghost predicate OpensWith(text: string, body: string) {
    exists b1: string, keyword: string, b2: string ::
      && AllSpace(b1) && AllSpace(b2) && Lower(keyword) == WORD && (body == "" || !IsSpace(body[0]))
      && text == OPEN + (b1 + (keyword + (b2 + body)))
  }

  /** A leading marker: the opening, and a closing mark somewhere after it. */
  ghost predicate HasMarker(text: string) {
    exists body: string :: OpensWith(text, body) && HasClose(body)
  }

  lemma TrimStartBlank(b: string, rest: string)
    requires AllSpace(b) && (rest == "" || !IsSpace(rest[0]))
    ensures TrimStart(b + rest) == rest
  {
    if rest == "" {
      assert b + rest == b;
      TrimStartDropsBlanks(b);
    } else {
      TrimStartPadded(b, rest);
    }
  }

  lemma KeywordIsNotBlank(keyword: string)
    requires Lower(keyword) == WORD
    ensures |keyword| == |WORD| && !IsSpace(keyword[0])
  {
    assert LowerChar(keyword[0]) == WORD[0];
  }

  lemma BodyOfSpelling(b1: string, keyword: string, b2: string, body: string)
    requires AllSpace(b1) && AllSpace(b2) && Lower(keyword) == WORD && (body == "" || !IsSpace(body[0]))
    ensures Body(OPEN + (b1 + (keyword + (b2 + body)))) == Some(body)
  {
    var text := OPEN + (b1 + (keyword + (b2 + body)));
    var rest := keyword + (b2 + body);
    KeywordIsNotBlank(keyword);
    assert text[..|OPEN|] == OPEN && text[|OPEN|..] == b1 + rest;
    TrimStartBlank(b1, rest);
    assert rest[..|WORD|] == keyword && rest[|WORD|..] == b2 + body;
    TrimStartBlank(b2, body);
  }

  lemma KeywordOf(s: string)
    requires AfterKeyword(s).Some?
    ensures |s| >= |WORD| && Lower(s[..|WORD|]) == WORD && AfterKeyword(s).value == TrimStart(s[|WORD|..])
    ensures s == s[..|WORD|] + (LeadingBlanks(s[|WORD|..]) + AfterKeyword(s).value)
  {
    TrimStartDropsBlanks(s[|WORD|..]);
    assert s == s[..|WORD|] + s[|WORD|..];
  }

  lemma Spelled(text: string, b1: string, keyword: string, b2: string, body: string)
    requires AllSpace(b1) && AllSpace(b2) && Lower(keyword) == WORD && (body == "" || !IsSpace(body[0]))
    requires text == OPEN + (b1 + (keyword + (b2 + body)))
    ensures OpensWith(text, body)
  {
  }

  lemma SpellingOfBody(text: string, body: string)
    requires Body(text) == Some(body)
    ensures OpensWith(text, body)
  {
    var afterOpen := text[|OPEN|..];
    var r := TrimStart(afterOpen);
    TrimStartDropsBlanks(afterOpen);
    KeywordOf(r);
    TrimStartDropsBlanks(r[|WORD|..]);
    Spelled(text, LeadingBlanks(afterOpen), r[..|WORD|], LeadingBlanks(r[|WORD|..]), body);
  }

  /** The opening of a marker is found in every spelling of it, and only there. */
  lemma BodyIff(text: string, body: string)
    ensures Body(text) == Some(body) <==> OpensWith(text, body)
  {
    if OpensWith(text, body) {
      var b1: string, keyword: string, b2: string :|
        && AllSpace(b1) && AllSpace(b2) && Lower(keyword) == WORD && (body == "" || !IsSpace(body[0]))
        && text == OPEN + (b1 + (keyword + (b2 + body)));
      BodyOfSpelling(b1, keyword, b2, body);
    }
    if Body(text).Some? {
      SpellingOfBody(text, Body(text).value);
    }
  }

  /**
   * A clean token is found in every spelling of its marker: any blanks or none after the opening, after the keyword and
   * before the closing mark, the keyword in any case. What follows keeps everything but one line end and newlines.
   */
  lemma AnySpellingIsFound(b1: string, keyword: string, b2: string, token: string, b3: string, rest: string)
    requires AllSpace(b1) && AllSpace(b2) && AllSpace(b3) && Lower(keyword) == WORD
    requires Trimmed(token) && !HasClose(token)
    ensures Extract(OPEN + (b1 + (keyword + (b2 + (token + Closing(b3, rest)))))) == Extraction(Some(token), AfterClose(rest))
  {
    var body := token + Closing(b3, rest);
    assert body[0] == token[0];
    BodyOfSpelling(b1, keyword, b2, body);
    ExtractToken(OPEN + (b1 + (keyword + (b2 + body))), token, b3, rest);
  }

  /** Of the text after a marker, a carriage return and then all newlines are dropped, and nothing else. */
  lemma LineEndsAreDropped(s: string)
    ensures AfterClose("\r" + s) == DropNewlines(s) && AfterClose("\n" + s) == DropNewlines(s)
    ensures s != "" && s[0] != '\r' && s[0] != '\n' ==> AfterClose(s) == s
  {
    assert ("\r" + s)[1..] == s;
    DropOne(s);
  }

  lemma CloseFromBlank(s: string)
    requires Closes(s)
    ensures HasClose(s)
  {
    var t, k := TrimStart(s), |s| - |TrimStart(s)|;
    TrimStartDropsBlanks(s);
    assert t == s[k..] && t[..|CLOSE|] == CLOSE;
    assert forall i :: 0 <= i < |CLOSE| ==> s[k + i] == t[i];
    assert s[k..k + |CLOSE|] == CLOSE;
    assert CloseAt(s, k);
  }

  lemma CloseHere(s: string)
    requires CloseAt(s, 0)
    ensures Closes(s)
  {
    assert s[0] == s[0..|CLOSE|][0] == '-';
    assert TrimStart(s) == s;
  }

  lemma CloseHereOrLater(s: string)
    requires s != ""
    ensures HasClose(s) <==> CloseAt(s, 0) || HasClose(s[1..])
  {
    forall i: nat | 0 < i < |s|
      ensures CloseAt(s, i) <==> CloseAt(s[1..], i - 1)
    {
      if i + |CLOSE| <= |s| {
        assert s[1..][i - 1..i - 1 + |CLOSE|] == s[i..i + |CLOSE|];
      }
    }
    if HasClose(s[1..]) {
      var i: nat :| i < |s[1..]| && CloseAt(s[1..], i);
      assert CloseAt(s, i + 1);
    }
    if HasClose(s) && !CloseAt(s, 0) {
      var i: nat :| i < |s| && CloseAt(s, i);
      assert CloseAt(s[1..], i - 1);
    }
  }

  /** The group ends somewhere exactly if a closing mark follows. */
  lemma {:induction false} LazyEndIff(body: string, n: nat)
    requires n <= |body|
    ensures LazyEnd(body, n).Some? <==> HasClose(body[n..])
    decreases |body| - n
  {
    var s := body[n..];
    if Closes(s) {
      CloseFromBlank(s);
    } else if n == |body| {
      assert s == "";
    } else {
      LazyEndIff(body, n + 1);
      assert body[n + 1..] == s[1..];
      CloseHereOrLater(s);
      if CloseAt(s, 0) {
        CloseHere(s);
      }
    }
  }

  /** A text without a leading marker is no token and stays as it is, to the character. */
  lemma NoMarkerIsUntouched(text: string)
    requires !HasMarker(text)
    ensures Extract(text) == Extraction(None, text)
  {
    if Body(text).Some? {
      var body := Body(text).value;
      BodyIff(text, body);
      LazyEndIff(body, 0);
      assert body[0..] == body;
    }
  }

  predicate IsSuffix(t: string, s: string) {
    |t| <= |s| && t == s[|s| - |t|..]
  }

  lemma SuffixOfSuffix(a: string, b: string, c: string)
    requires IsSuffix(a, b) && IsSuffix(b, c)
    ensures IsSuffix(a, c)
  {
  }

  lemma {:induction false} DropNewlinesSuffix(s: string)
    ensures IsSuffix(DropNewlines(s), s)
  {
    if s != "" && s[0] == '\n' {
      DropNewlinesSuffix(s[1..]);
    }
  }

  lemma AfterCloseSuffix(s: string)
    ensures IsSuffix(AfterClose(s), s)
  {
    if s != "" && s[0] == '\r' {
      DropNewlinesSuffix(s[1..]);
    } else {
      DropNewlinesSuffix(s);
    }
  }

  lemma StrippedSuffix(body: string, end: nat)
    requires end <= |body| && Closes(body[end..])
    ensures IsSuffix(Stripped(body, end).text, body) && |Stripped(body, end).text| < |body|
  {
    var rest := TrimStart(body[end..]);
    TrimStartDropsBlanks(body[end..]);
    AfterCloseSuffix(rest[|CLOSE|..]);
    assert IsSuffix(rest[|CLOSE|..], rest) && IsSuffix(rest, body[end..]) && IsSuffix(body[end..], body);
    SuffixOfSuffix(rest[|CLOSE|..], rest, body[end..]);
    SuffixOfSuffix(rest[|CLOSE|..], body[end..], body);
    SuffixOfSuffix(AfterClose(rest[|CLOSE|..]), rest[|CLOSE|..], body);
  }

  lemma OpeningSuffix(text: string, body: string)
    requires OpensWith(text, body)
    ensures IsSuffix(body, text) && |body| < |text|
  {
    var b1: string, keyword: string, b2: string :|
      && AllSpace(b1) && AllSpace(b2) && Lower(keyword) == WORD && (body == "" || !IsSpace(body[0]))
      && text == OPEN + (b1 + (keyword + (b2 + body)));
  }

  /** Stripping only ever cuts from the front: it cuts something exactly if there is a leading marker, and nothing else. */
  lemma StrippingCutsTheMarker(text: string)
    ensures IsSuffix(Extract(text).text, text)
    ensures |Extract(text).text| < |text| <==> HasMarker(text)
  {
    if HasMarker(text) {
      var body: string :| OpensWith(text, body) && HasClose(body);
      BodyIff(text, body);
      LazyEndIff(body, 0);
      assert body[0..] == body;
      StrippedSuffix(body, LazyEnd(body, 0).value);
      OpeningSuffix(text, body);
      SuffixOfSuffix(Extract(text).text, body, text);
    } else {
      NoMarkerIsUntouched(text);
    }
  }

  /** A text that does not even start with `<!--`, as every first goal, has none. */
  lemma MarkersStartWithOpen(text: string)
    ensures !(OPEN <= text) ==> !HasMarker(text)
  {
    forall b1: string, keyword: string, b2: string, body: string
      ensures OPEN <= OPEN + (b1 + (keyword + (b2 + body)))
    {
    }
  }

  // The key a tool's token is stored under.

  predicate InRange(toolId: string, key: string) {
    key == toolId || toolId + "::" <= key
  }

  /** The stored entries that count as this tool's. */
  function Own(toolId: string, existing: map<string, string>): (own: set<string>) {
    set key <- existing.Keys | InRange(toolId, key)
  }

  lemma OneElement(s: set<string>)
    requires |s| == 1
    ensures forall a, b :: a in s && b in s ==> a == b
  {
    var x :| x in s;
    assert |s - {x}| == 0;
  }

  function ResolveKey(toolId: string, instanceKey: string, existing: map<string, string>): (key: string)
    ensures instanceKey == "" ==> (key in Own(toolId, existing) && |Own(toolId, existing)| == 1) || key == toolId
  {
    if instanceKey != "" then toolId + "::" + instanceKey
    else
      var own := Own(toolId, existing);
      if |own| == 1 then
        OneElement(own);
        var key :| key in own;
        key
      else toolId
  }

  /** One tool call: the key it resolves to receives the token it returned, none if that was empty. */
  datatype Call = Call(toolId: string, instanceKey: string, token: string)

  /** What the call reports to the session: its token under the key it resolved to. */
  function Reported(tokens: map<string, string>, c: Call): (extracted: Sessions.Extracted) {
    Sessions.Extracted(ResolveKey(c.toolId, c.instanceKey, tokens), c.token)
  }

  function AfterCall(tokens: map<string, string>, c: Call): (after: map<string, string>) {
    Sessions.Merge(tokens, Some(Reported(tokens, c)))
  }

  function AfterCalls(tokens: map<string, string>, calls: seq<Call>): (after: map<string, string>) {
    if calls == [] then tokens else AfterCall(AfterCalls(tokens, Front(calls)), Last(calls))
  }

  /** The entries of tool `b` count as tool `a`'s too, all of them or those of some instances. */
  predicate Nested(a: string, b: string) {
    a + "::" <= b || b == a + ":"
  }

  lemma NestedRangesMeet(a: string, b: string)
    requires Nested(a, b)
    ensures InRange(a, b + "::") && InRange(b, b + "::")
  {
  }

  lemma CommonKeyNests(a: string, b: string, key: string)
    requires a != b && |a| <= |b| && InRange(a, key) && InRange(b, key)
    ensures Nested(a, b)
  {
    assert a <= b && a + "::" <= key;
    if |b| >= |a| + 2 {
      assert b[..|a| + 2] == key[..|a| + 2];
    } else {
      assert b[|a|] == key[|a|] == (a + "::")[|a|];
      assert b == a + ":";
    }
  }

  /** Two tools have entries of their own exactly if neither id is nested in the other; ids without a colon never are. */
  lemma RangesAreDisjointIff(a: string, b: string)
    requires a != b
    ensures (forall key :: !(InRange(a, key) && InRange(b, key))) <==> !Nested(a, b) && !Nested(b, a)
  {
    if Nested(a, b) {
      NestedRangesMeet(a, b);
    } else if Nested(b, a) {
      NestedRangesMeet(b, a);
    } else {
      forall key
        ensures !(InRange(a, key) && InRange(b, key))
      {
        if InRange(a, key) && InRange(b, key) {
          if |a| <= |b| {
            CommonKeyNests(a, b, key);
          } else {
            CommonKeyNests(b, a, key);
          }
        }
      }
    }
  }

  lemma OneOwn(toolId: string, tokens: map<string, string>, key: string)
    requires Own(toolId, tokens) == {key}
    ensures ResolveKey(toolId, "", tokens) == key
  {
  }

  /** The last call of this tool returned an empty token. */
  predicate LastForgets(toolId: string, calls: seq<Call>) {
    calls != [] && if Last(calls).toolId == toolId then Last(calls).token == "" else LastForgets(toolId, Front(calls))
  }

  /** No call of this tool follows one that returned an empty token. */
  predicate NoneForgotten(toolId: string, calls: seq<Call>) {
    calls != [] ==>
      NoneForgotten(toolId, Front(calls)) && (Last(calls).toolId == toolId ==> !LastForgets(toolId, Front(calls)))
  }

  /** Every call of this tool resolves to `key`. */
  predicate KeyHolds(toolId: string, key: string, tokens: map<string, string>, calls: seq<Call>) {
    calls != [] ==>
      && KeyHolds(toolId, key, tokens, Front(calls))
      && (Last(calls).toolId == toolId ==> ResolveKey(toolId, "", AfterCalls(tokens, Front(calls))) == key)
  }

  /** This tool's calls name no instance, and the other tools called have entries of their own. */
  predicate NamesNoInstance(toolId: string, calls: seq<Call>) {
    forall c <- calls ::
      if c.toolId == toolId then c.instanceKey == "" else !Nested(toolId, c.toolId) && !Nested(c.toolId, toolId)
  }

  lemma OtherCallKeepsOwn(toolId: string, tokens: map<string, string>, c: Call)
    requires c.toolId != toolId && !Nested(toolId, c.toolId) && !Nested(c.toolId, toolId)
    ensures Own(toolId, AfterCall(tokens, c)) == Own(toolId, tokens)
  {
    var k := ResolveKey(c.toolId, c.instanceKey, tokens);
    assert InRange(c.toolId, k);
    RangesAreDisjointIff(c.toolId, toolId);
    assert forall x :: x in Own(toolId, AfterCall(tokens, c)) <==> x in Own(toolId, tokens);
  }

  lemma OwnCallMovesOwn(toolId: string, tokens: map<string, string>, c: Call, key: string)
    requires c.toolId == toolId && c.instanceKey == ""
    requires Own(toolId, tokens) == {key} || (Own(toolId, tokens) == {} && key == toolId)
    ensures Own(toolId, AfterCall(tokens, c)) == if c.token == "" then {} else {key}
    ensures ResolveKey(toolId, "", tokens) == key
  {
    if Own(toolId, tokens) == {key} {
      OneOwn(toolId, tokens, key);
      assert key in Own(toolId, tokens);
    }
    assert ResolveKey(toolId, "", tokens) == key && InRange(toolId, key);
    var after := AfterCall(tokens, c);
    assert after == if c.token == "" then tokens - {key} else tokens[key := c.token];
    forall x
      ensures x in Own(toolId, after) <==> x == key && c.token != ""
    {
      assert x in tokens && InRange(toolId, x) ==> x in Own(toolId, tokens);
    }
  }

  /**
   * Once a tool has exactly one stored entry, all later calls of it that name no instance resolve to that same key,
   * through any calls of other tools, exactly if the key is the bare tool id or none of its calls but the last
   * returns an empty token.
   */
  lemma {:induction false} KeyIsStable(toolId: string, key: string, tokens: map<string, string>, calls: seq<Call>)
    requires NamesNoInstance(toolId, calls) && Own(toolId, tokens) == {key}
    ensures KeyHolds(toolId, key, tokens, calls) <==> key == toolId || NoneForgotten(toolId, calls)
    ensures KeyHolds(toolId, key, tokens, calls) ==>
      Own(toolId, AfterCalls(tokens, calls)) == if LastForgets(toolId, calls) then {} else {key}
  {
    if calls == [] {
    } else {
      var c, before := Last(calls), AfterCalls(tokens, Front(calls));
      assert c in calls && forall d <- Front(calls) :: d in calls;
      KeyIsStable(toolId, key, tokens, Front(calls));
      if c.toolId != toolId {
        OtherCallKeepsOwn(toolId, before, c);
      } else if KeyHolds(toolId, key, tokens, Front(calls)) {
        if LastForgets(toolId, Front(calls)) && key != toolId {
          assert ResolveKey(toolId, "", before) == toolId;
        } else {
          OwnCallMovesOwn(toolId, before, c, key);
        }
      }
    }
  }

  /** An explicit instance always wins, and the instances of one tool do not touch one another's tokens. */
  lemma InstancesStayApart(tokens: map<string, string>, c: Call, other: string)
    requires c.instanceKey != "" && other != c.instanceKey
    ensures ResolveKey(c.toolId, c.instanceKey, tokens) == c.toolId + "::" + c.instanceKey
    ensures var key := c.toolId + "::" + other;
      (key in AfterCall(tokens, c) <==> key in tokens) && (key in tokens ==> AfterCall(tokens, c)[key] == tokens[key])
  {
    var k := |c.toolId + "::"|;
    assert (c.toolId + "::" + other)[k..] == other && (c.toolId + "::" + c.instanceKey)[k..] == c.instanceKey;
  }

  /** An empty token forgets the entry: the next call resolves to the bare tool id, the same key only if it was that. */
  lemma EmptyTokenForgetsKey(toolId: string, key: string, tokens: map<string, string>)
    requires Own(toolId, tokens) == {key}
    ensures ResolveKey(toolId, "", AfterCall(tokens, Call(toolId, "", ""))) == toolId
  {
    OneOwn(toolId, tokens, key);
    assert key in Own(toolId, tokens);
    assert Own(toolId, tokens - {key}) == {};
  }
}
