/** Strings the way the TypeScript sources cut them: white space, trimming, splitting. */
module Text {
  datatype Option<+T> = None | Some(value: T)

  /** JavaScript's white space and line terminators: what `trim` strips and `\s` matches. */
  predicate IsSpace(c: char) {
    var n := c as int;
    9 <= n <= 13 || n == 0x20 || n == 0xA0 || n == 0x1680 || 0x2000 <= n <= 0x200A
    || n == 0x2028 || n == 0x2029 || n == 0x202F || n == 0x205F || n == 0x3000 || n == 0xFEFF
  }

  predicate AllSpace(s: string) {
    forall i :: 0 <= i < |s| ==> IsSpace(s[i])
  }

  predicate NoSpace(s: string) {
    forall i :: 0 <= i < |s| ==> !IsSpace(s[i])
  }

  function TrimStart(s: string): (t: string)
    ensures |t| <= |s|
    ensures t != "" ==> !IsSpace(t[0])
  {
    if s != "" && IsSpace(s[0]) then TrimStart(s[1..]) else s
  }

  /** What trimming drops. */
  function LeadingBlanks(s: string): (b: string) {
    s[..|s| - |TrimStart(s)|]
  }

  lemma {:induction false} TrimStartDropsBlanks(s: string)
    ensures AllSpace(LeadingBlanks(s)) && s == LeadingBlanks(s) + TrimStart(s)
    ensures TrimStart(s) == s[|s| - |TrimStart(s)|..]
  {
    if s != "" && IsSpace(s[0]) {
      TrimStartDropsBlanks(s[1..]);
      assert s == [s[0]] + s[1..];
      assert LeadingBlanks(s) == [s[0]] + LeadingBlanks(s[1..]);
    }
  }

  function TrimEnd(s: string): (t: string)
    ensures t <= s
    ensures t != "" ==> !IsSpace(t[|t| - 1])
  {
    if s != "" && IsSpace(s[|s| - 1]) then TrimEnd(s[..|s| - 1]) else s
  }

  function TrailingBlanks(s: string): (b: string) {
    s[|TrimEnd(s)|..]
  }

  lemma {:induction false} TrimEndDropsBlanks(s: string)
    ensures AllSpace(TrailingBlanks(s)) && s == TrimEnd(s) + TrailingBlanks(s)
  {
    if s != "" && IsSpace(s[|s| - 1]) {
      TrimEndDropsBlanks(s[..|s| - 1]);
      assert TrailingBlanks(s) == TrailingBlanks(s[..|s| - 1]) + [s[|s| - 1]];
    }
  }

  function Trim(s: string): (t: string)
    ensures t != "" ==> !IsSpace(t[0]) && !IsSpace(t[|t| - 1])
  {
    TrimEnd(TrimStart(s))
  }

  /** Only blank texts trim to nothing. */
  lemma BlankIff(s: string)
    ensures Trim(s) == "" <==> AllSpace(s)
  {
    var t := TrimStart(s);
    TrimStartDropsBlanks(s);
    TrimEndDropsBlanks(t);
    assert s == s[..|s| - |t|] + t;
    assert t != "" ==> !IsSpace(s[|s| - |t|]);
  }

  lemma {:induction false} TrimStartPadded(before: string, rest: string)
    requires AllSpace(before) && rest != "" && !IsSpace(rest[0])
    ensures TrimStart(before + rest) == rest
  {
    if before == "" {
      assert before + rest == rest;
    } else {
      assert (before + rest)[1..] == before[1..] + rest;
      TrimStartPadded(before[1..], rest);
    }
  }

  lemma {:induction false} TrimEndPadded(rest: string, after: string)
    requires AllSpace(after) && rest != "" && !IsSpace(rest[|rest| - 1])
    ensures TrimEnd(rest + after) == rest
    decreases |after|
  {
    if after == "" {
      assert rest + after == rest;
    } else {
      assert (rest + after)[..|rest + after| - 1] == rest + after[..|after| - 1];
      TrimEndPadded(rest, after[..|after| - 1]);
    }
  }

  /** Text between blanks is found again: trimming undoes padding. */
  lemma TrimPadded(before: string, core: string, after: string)
    requires AllSpace(before) && AllSpace(after)
    requires core != "" && !IsSpace(core[0]) && !IsSpace(core[|core| - 1])
    ensures Trim(before + core + after) == core
  {
    TrimStartPadded(before, core + after);
    assert before + core + after == before + (core + after);
    TrimEndPadded(core, after);
  }

  function Last<T>(s: seq<T>): (t: T)
    requires s != []
  {
    s[|s| - 1]
  }

  function Front<T>(s: seq<T>): (t: seq<T>)
    requires s != []
  {
    s[..|s| - 1]
  }

  lemma AppendAssoc<T>(a: seq<T>, b: seq<T>, c: seq<T>)
    ensures a + (b + c) == (a + b) + c
  {
  }

  function IndexOf(s: string, c: char): (idx: Option<nat>)
    ensures idx.None? <==> c !in s
    ensures idx.Some? ==> idx.value < |s| && s[idx.value] == c && c !in s[..idx.value]
  {
    if s == "" then None
    else if s[0] == c then Some(0)
    else
      var rest := IndexOf(s[1..], c);
      if rest.None? then None else
        assert s[..rest.value + 1] == [s[0]] + s[1..][..rest.value];
        Some(rest.value + 1)
  }

  lemma IndexIs(s: string, c: char, k: nat)
    requires k < |s| && s[k] == c && c !in s[..k]
    ensures IndexOf(s, c) == Some(k)
  {
    var i := IndexOf(s, c).value;
    assert forall j :: 0 <= j < k ==> s[j] in s[..k];
    assert forall j :: k < j <= |s| ==> s[..j][k] == c;
  }

  /** JavaScript's `split` on one character: never empty, the separator removed. */
  function Split(s: string, sep: char): (parts: seq<string>)
    ensures parts != []
  {
    if s == "" then [""]
    else
      var rest := Split(s[1..], sep);
      if s[0] == sep then [""] + rest else [[s[0]] + rest[0]] + rest[1..]
  }

  /** Two split texts written one after the other: the last part of the first runs on. */
  function Glue(p: seq<string>, q: seq<string>): (r: seq<string>)
    requires p != [] && q != []
    ensures r != []
  {
    Front(p) + [Last(p) + q[0]] + q[1..]
  }

  lemma GlueHead(head: string, p: seq<string>, q: seq<string>)
    requires p != [] && q != []
    ensures Glue([head + p[0]] + p[1..], q) == [head + Glue(p, q)[0]] + Glue(p, q)[1..]
  {
    if |p| == 1 {
      assert head + p[0] + q[0] == head + (p[0] + q[0]);
    }
  }

  /** Splitting a longer text keeps every finished part and only continues the last one. */
  lemma {:induction false} SplitAppend(a: string, b: string, sep: char)
    ensures Split(a + b, sep) == Glue(Split(a, sep), Split(b, sep))
  {
    if a == "" {
      assert a + b == b;
      assert "" + Split(b, sep)[0] == Split(b, sep)[0];
      assert Glue([""], Split(b, sep)) == Split(b, sep);
    } else {
      assert (a + b)[1..] == a[1..] + b;
      SplitAppend(a[1..], b, sep);
      if a[0] == sep {
        assert Glue([""] + Split(a[1..], sep), Split(b, sep)) == [""] + Glue(Split(a[1..], sep), Split(b, sep));
      } else {
        GlueHead([a[0]], Split(a[1..], sep), Split(b, sep));
      }
    }
  }

  /** A text free of the separator is one part. */
  lemma {:induction false} SplitOne(line: string, sep: char)
    requires sep !in line
    ensures Split(line, sep) == [line]
  {
    if line == "" {
    } else {
      SplitOne(line[1..], sep);
      assert [line[0]] + line[1..] == line;
    }
  }

  /** The first separator ends the first part. */
  lemma {:induction false} SplitAt(s: string, sep: char, idx: nat)
    requires idx < |s| && s[idx] == sep && sep !in s[..idx]
    ensures Split(s, sep) == [s[..idx]] + Split(s[idx + 1..], sep)
  {
    if idx == 0 {
      assert s[..0] == "";
    } else {
      assert s[0] == s[..idx][0];
      assert s[..idx] == [s[0]] + s[1..][..idx - 1];
      SplitAt(s[1..], sep, idx - 1);
      assert s[1..][idx..] == s[idx + 1..];
      assert [s[0]] + s[1..][..idx - 1] == s[..idx];
    }
  }

  function Concat(chunks: seq<string>): (s: string) {
    if chunks == [] then "" else Concat(Front(chunks)) + Last(chunks)
  }

  lemma ConcatNext(chunks: seq<string>, i: nat)
    requires i < |chunks|
    ensures Concat(chunks[..i + 1]) == Concat(chunks[..i]) + chunks[i]
  {
    assert Front(chunks[..i + 1]) == chunks[..i];
  }

  /** The ASCII half of `toLowerCase`, the only half the keywords compared here can tell apart. */
  function LowerChar(c: char): (l: char) {
    if 'A' <= c <= 'Z' then (c as int + 32) as char else c
  }

  function Lower(s: string): (l: string)
    ensures |l| == |s| && forall i :: 0 <= i < |s| ==> l[i] == LowerChar(s[i])
  {
    seq(|s|, i requires 0 <= i < |s| => LowerChar(s[i]))
  }

  /** Upper-case letters fold to the lower-case ones, everything else stays. */
  lemma FoldsCase(c: char)
    ensures 'A' <= c <= 'Z' ==> 'a' <= LowerChar(c) <= 'z' && LowerChar(c) as int - 'a' as int == c as int - 'A' as int
    ensures !('A' <= c <= 'Z') ==> LowerChar(c) == c
  {
  }

  /** The blanks of ASCII are white space, its visible characters are not. */
  lemma AsciiBlanks(c: char)
    requires c < '\U{7F}'
    ensures IsSpace(c) <==> c in " \t\n\r" || c == '\U{B}' || c == '\U{C}'
  {
  }
}
