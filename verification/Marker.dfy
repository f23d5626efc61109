/** The coding agent's continuation state and the token that carries it from one episode to the next. */
module Marker {
  import opened Text
  import opened WordSplit
  import opened Continuation

  datatype SweMarker = SweMarker(repo: string, branch: string, pr: Option<string>, session: string)

  predicate Alphanumeric(c: char) {
    'A' <= c <= 'Z' || 'a' <= c <= 'z' || '0' <= c <= '9'
  }

  predicate NameChar(c: char) {
    Alphanumeric(c) || c == '.' || c == '_' || c == '-'
  }

  predicate IsName(s: string) {
    s != "" && forall i :: 0 <= i < |s| ==> NameChar(s[i])
  }

  /** `owner/name`. */
  predicate IsRepo(s: string) {
    var slash := IndexOf(s, '/');
    slash.Some? && IsName(s[..slash.value]) && IsName(s[slash.value + 1..])
  }

  predicate IsRef(s: string) {
    s != "" && forall i :: 0 <= i < |s| ==> NameChar(s[i]) || s[i] == '/'
  }

  predicate IsNumber(s: string) {
    s != "" && forall i :: 0 <= i < |s| ==> '0' <= s[i] <= '9'
  }

  predicate IsSession(s: string) {
    s != "" && forall i :: 0 <= i < |s| ==> NameChar(s[i]) && s[i] != '.'
  }

  predicate WellFormed(m: SweMarker) {
    IsRepo(m.repo) && IsRef(m.branch) && IsSession(m.session) && (m.pr.Some? ==> IsNumber(m.pr.value))
  }

  /** The key a part sets, if it is a `key=value` pair with a key. */
  function KeyOf(pair: string): (key: Option<string>) {
    var eq := IndexOf(pair, '=');
    if eq.None? || eq.value == 0 then None else Some(Lower(pair[..eq.value]))
  }

  function ValueOf(pair: string): (value: string)
    requires KeyOf(pair).Some?
  {
    pair[IndexOf(pair, '=').value + 1..]
  }

  function Fields(words: seq<string>): (fields: map<string, string>) {
    if words == [] then map[]
    else
      var before, pair := Fields(Front(words)), Last(words);
      if KeyOf(pair).None? then before else before[KeyOf(pair).value := ValueOf(pair)]
  }

  /** `key=value` sets the key in lower case to everything after the first `=`; a part without a key sets nothing. */
  lemma PairsAreRead(key: string, value: string)
    requires '=' !in key
    ensures KeyOf(key + "=" + value) == if key == "" then None else Some(Lower(key))
    ensures key != "" ==> ValueOf(key + "=" + value) == value
    ensures KeyOf(key).None?
  {
    var pair := key + "=" + value;
    assert pair[..|key|] == key && pair[|key|] == '=' && pair[|key| + 1..] == value;
    IndexIs(pair, '=', |key|);
  }

  method ParseFields(body: string) returns (out: map<string, string>)
    ensures out == Fields(Words(body))
  {
    var words := Words(body);
    out := map[];
    for i := 0 to |words|
      invariant out == Fields(words[..i])
    {
      var pair := words[i];
      assert Front(words[..i + 1]) == words[..i];
      var eq := IndexOf(pair, '=');
      if eq.None? || eq.value == 0 {
        continue;
      }
      out := out[Lower(pair[..eq.value]) := pair[eq.value + 1..]];
    }
    assert words[..|words|] == words;
  }

  predicate Sets(pair: string, key: string) {
    KeyOf(pair) == Some(key)
  }

  predicate SetsNone(words: seq<string>, key: string) {
    forall i :: 0 <= i < |words| ==> !Sets(words[i], key)
  }

  lemma FieldsStep(words: seq<string>, key: string)
    requires words != []
    ensures key in Fields(words) <==> key in Fields(Front(words)) || Sets(Last(words), key)
    ensures Sets(Last(words), key) ==> Fields(words)[key] == ValueOf(Last(words))
    ensures !Sets(Last(words), key) && key in Fields(words) ==> Fields(words)[key] == Fields(Front(words))[key]
  {
  }

  lemma SetsNoneStep(words: seq<string>, key: string)
    requires words != []
    ensures SetsNone(words, key) <==> SetsNone(Front(words), key) && !Sets(Last(words), key)
  {
    assert Last(words) == words[|words| - 1];
    assert forall i :: 0 <= i < |words| - 1 ==> words[i] == Front(words)[i];
  }

  /** A key is present exactly if some pair names it, in whatever case. */
  lemma {:induction false} KeyIsSetIff(words: seq<string>, key: string)
    ensures key in Fields(words) <==> !SetsNone(words, key)
  {
    if words == [] {
    } else {
      FieldsStep(words, key);
      KeyIsSetIff(Front(words), key);
      SetsNoneStep(words, key);
    }
  }

  /** A key's value is what the last pair naming it, in whatever case, says. */
  lemma {:induction false} LastPairWins(words: seq<string>, key: string, i: nat)
    requires i < |words| && SetsNone(words[i + 1..], key)
    ensures Sets(words[i], key) ==> key in Fields(words) && Fields(words)[key] == ValueOf(words[i])
    decreases |words|
  {
    FieldsStep(words, key);
    if i == |words| - 1 {
      assert words[i] == Last(words);
    } else {
      var later := words[i + 1..];
      assert Last(later) == Last(words) && Front(later) == Front(words)[i + 1..];
      SetsNoneStep(later, key);
      LastPairWins(Front(words), key, i);
    }
  }

  function FieldOr(fields: map<string, string>, key: string): (value: string) {
    if key in fields then fields[key] else ""
  }

  function FromFields(fields: map<string, string>): (m: Option<SweMarker>) {
    var repo, branch := FieldOr(fields, "repo"), FieldOr(fields, "branch");
    var pr, session := FieldOr(fields, "pr"), FieldOr(fields, "session");
    if !IsRepo(repo) || !IsRef(branch) || !IsSession(session) then None
    else if pr != "" && !IsNumber(pr) then None
    else Some(SweMarker(repo, branch, if pr == "" then None else Some(pr), session))
  }

  function Decode(token: Option<string>): (m: Option<SweMarker>) {
    if token.None? || token.value == "" then None else FromFields(Fields(Words(token.value)))
  }

  function Pair(key: string, value: string): (pair: string) {
    key + "=" + value
  }

  function Parts(m: SweMarker): (parts: seq<string>) {
    [Pair("repo", m.repo), Pair("branch", m.branch)]
    + (if m.pr.None? || m.pr.value == "" then [] else [Pair("pr", m.pr.value)])
    + [Pair("session", m.session)]
  }

  /** `join(" ")`. */
  function Join(parts: seq<string>): (s: string)
    requires parts != []
  {
    if |parts| == 1 then parts[0] else Join(Front(parts)) + " " + Last(parts)
  }

  function Encoded(m: SweMarker): (token: string) {
    Join(Parts(m))
  }

  method Encode(m: SweMarker) returns (token: string)
    ensures token == Encoded(m)
  {
    var parts := [Pair("repo", m.repo), Pair("branch", m.branch)];
    if m.pr.Some? && m.pr.value != "" {
      parts := parts + [Pair("pr", m.pr.value)];
    }
    parts := parts + [Pair("session", m.session)];
    assert parts == Parts(m);
    token := Join(parts);
  }

  // Splitting undoes joining.

  lemma JoinNext(before: seq<string>, last: string)
    requires before != []
    ensures Join(before + [last]) == Join(before) + " " + last
  {
    assert Front(before + [last]) == before;
  }

  lemma WordsNext(joined: string, words: seq<string>, last: string)
    requires Words(joined) == words && IsWord(last)
    ensures Words(joined + " " + last) == words + [last]
  {
    WordsAround(joined, last);
    WordsOfWord(last);
  }

  predicate AreWords(parts: seq<string>) {
    forall i :: 0 <= i < |parts| ==> IsWord(parts[i])
  }

  lemma WordsApart(parts: seq<string>)
    requires parts != [] && AreWords(parts)
    ensures AreWords(Front(parts)) && IsWord(Last(parts)) && parts == Front(parts) + [Last(parts)]
  {
    assert Last(parts) == parts[|parts| - 1];
  }

  lemma {:induction false} WordsOfJoin(parts: seq<string>)
    requires parts != [] && AreWords(parts)
    ensures Words(Join(parts)) == parts
  {
    var before, last := Front(parts), Last(parts);
    WordsApart(parts);
    if before == [] {
      WordsOfWord(last);
    } else {
      WordsOfJoin(before);
      WordsNext(Join(before), before, last);
      JoinNext(before, last);
    }
  }

  // Decoding undoes encoding.

  predicate IsKey(key: string) {
    key != "" && '=' !in key && Lower(key) == key
  }

  lemma PairSets(key: string, value: string)
    requires IsKey(key)
    ensures KeyOf(Pair(key, value)) == Some(key) && ValueOf(Pair(key, value)) == value
  {
    var pair := Pair(key, value);
    assert pair[|key|] == '=' && forall i :: 0 <= i < |key| ==> pair[i] == key[i];
    assert pair[..|key|] == key && pair[|key| + 1..] == value;
  }

  lemma FieldsNext(words: seq<string>, key: string, value: string)
    requires IsKey(key)
    ensures Fields(words + [Pair(key, value)]) == Fields(words)[key := value]
  {
    PairSets(key, value);
    assert Front(words + [Pair(key, value)]) == words;
  }

  lemma FieldsOfTwo(k1: string, k2: string, v1: string, v2: string)
    requires IsKey(k1) && IsKey(k2)
    ensures Fields([Pair(k1, v1), Pair(k2, v2)]) == map[k1 := v1][k2 := v2]
  {
    FieldsNext([], k1, v1);
    FieldsNext([Pair(k1, v1)], k2, v2);
    assert [] + [Pair(k1, v1)] == [Pair(k1, v1)];
    assert [Pair(k1, v1)] + [Pair(k2, v2)] == [Pair(k1, v1), Pair(k2, v2)];
  }

  lemma FieldsOfThree(k1: string, k2: string, k3: string, v1: string, v2: string, v3: string)
    requires IsKey(k1) && IsKey(k2) && IsKey(k3)
    ensures Fields([Pair(k1, v1), Pair(k2, v2)] + [Pair(k3, v3)]) == map[k1 := v1][k2 := v2][k3 := v3]
  {
    FieldsOfTwo(k1, k2, v1, v2);
    FieldsNext([Pair(k1, v1), Pair(k2, v2)], k3, v3);
  }

  lemma FieldsOfFour(
    k1: string, k2: string, k3: string, k4: string, v1: string, v2: string, v3: string, v4: string)
    requires IsKey(k1) && IsKey(k2) && IsKey(k3) && IsKey(k4)
    ensures Fields([Pair(k1, v1), Pair(k2, v2)] + [Pair(k3, v3)] + [Pair(k4, v4)]) ==
      map[k1 := v1][k2 := v2][k3 := v3][k4 := v4]
  {
    FieldsOfThree(k1, k2, k3, v1, v2, v3);
    FieldsNext([Pair(k1, v1), Pair(k2, v2)] + [Pair(k3, v3)], k4, v4);
  }

  /** The four keys are lower case and different from one another. */
  predicate AreKeys(repo: string, branch: string, pr: string, session: string) {
    && IsKey(repo) && IsKey(branch) && IsKey(pr) && IsKey(session)
    && repo != branch && repo != pr && repo != session && branch != pr && branch != session && pr != session
  }

  lemma Keys()
    ensures AreKeys("repo", "branch", "pr", "session")
  {
    assert |"repo"| == 4 && |"branch"| == 6 && |"pr"| == 2 && |"session"| == 7;
  }

  lemma FieldsFound(repo: string, branch: string, pr: string, session: string, m: SweMarker)
    requires AreKeys(repo, branch, pr, session)
    ensures var two := [Pair(repo, m.repo), Pair(branch, m.branch)];
      var fields := Fields(
        if m.pr.None? then two + [Pair(session, m.session)]
        else two + [Pair(pr, m.pr.value)] + [Pair(session, m.session)]);
      && FieldOr(fields, repo) == m.repo && FieldOr(fields, branch) == m.branch
      && FieldOr(fields, session) == m.session && FieldOr(fields, pr) == if m.pr.None? then "" else m.pr.value
  {
    if m.pr.None? {
      FieldsOfThree(repo, branch, session, m.repo, m.branch, m.session);
    } else {
      FieldsOfFour(repo, branch, pr, session, m.repo, m.branch, m.pr.value, m.session);
    }
  }

  lemma Reassembled(m: SweMarker, fields: map<string, string>)
    requires WellFormed(m)
    requires FieldOr(fields, "repo") == m.repo && FieldOr(fields, "branch") == m.branch
    requires FieldOr(fields, "session") == m.session
    requires FieldOr(fields, "pr") == if m.pr.None? then "" else m.pr.value
    ensures FromFields(fields) == Some(m)
  {
  }

  lemma PartsAre(m: SweMarker)
    requires WellFormed(m)
    ensures var two := [Pair("repo", m.repo), Pair("branch", m.branch)];
      Parts(m) == if m.pr.None? then two + [Pair("session", m.session)]
                  else two + [Pair("pr", m.pr.value)] + [Pair("session", m.session)]
  {
  }

  lemma FieldsOfParts(m: SweMarker)
    requires WellFormed(m)
    ensures FromFields(Fields(Parts(m))) == Some(m)
  {
    Keys();
    PartsAre(m);
    FieldsFound("repo", "branch", "pr", "session", m);
    Reassembled(m, Fields(Parts(m)));
  }

  predicate IsClean(s: string) {
    IsWord(s) && '>' !in s
  }

  predicate AreClean(parts: seq<string>) {
    forall i :: 0 <= i < |parts| ==> IsClean(parts[i])
  }

  lemma PairIsClean(key: string, value: string)
    requires IsClean(key) && IsClean(value)
    ensures IsClean(Pair(key, value))
  {
  }

  lemma NamesAreClean(s: string)
    requires IsRef(s) || IsNumber(s) || IsSession(s)
    ensures IsClean(s)
  {
  }

  lemma KeysAreClean()
    ensures IsClean("repo") && IsClean("branch") && IsClean("pr") && IsClean("session")
  {
  }

  lemma RepoChars(repo: string)
    requires IsRepo(repo)
    ensures IsRef(repo)
  {
    var slash := IndexOf(repo, '/').value;
    forall i | 0 <= i < |repo|
      ensures NameChar(repo[i]) || repo[i] == '/'
    {
      if i < slash {
        assert repo[..slash][i] == repo[i];
      } else if i > slash {
        assert repo[slash + 1..][i - slash - 1] == repo[i];
      }
    }
  }

  lemma PartsAreClean(m: SweMarker)
    requires WellFormed(m)
    ensures AreClean(Parts(m)) && AreWords(Parts(m))
  {
    KeysAreClean();
    RepoChars(m.repo);
    NamesAreClean(m.repo);
    NamesAreClean(m.branch);
    NamesAreClean(m.session);
    PairIsClean("repo", m.repo);
    PairIsClean("branch", m.branch);
    PairIsClean("session", m.session);
    if m.pr.Some? {
      NamesAreClean(m.pr.value);
      PairIsClean("pr", m.pr.value);
    }
  }

  /** Whatever decodes is well formed. */
  lemma DecodedIsWellFormed(token: Option<string>)
    ensures var m := Decode(token); m.Some? ==> WellFormed(m.value)
  {
  }

  lemma {:induction false} JoinIsClean(parts: seq<string>)
    requires parts != [] && AreClean(parts)
    ensures Trimmed(Join(parts)) && '>' !in Join(parts)
  {
    assert Last(parts) == parts[|parts| - 1];
    if |parts| > 1 {
      JoinIsClean(Front(parts));
    }
  }

  predicate SafeChar(c: char) {
    'A' <= c <= 'Z' || 'a' <= c <= 'z' || '0' <= c <= '9' || c in "._-/"
  }

  predicate IsSafe(s: string) {
    s != "" && forall i :: 0 <= i < |s| ==> SafeChar(s[i])
  }

  predicate IsDigits(s: string) {
    s != "" && forall i :: 0 <= i < |s| ==> s[i] in "0123456789"
  }

  /** `s` is two parts around its only slash. */
  ghost predicate HasOneSlash(s: string) {
    exists owner: string, name: string ::
      owner != "" && name != "" && '/' !in owner && '/' !in name && s == owner + "/" + name
  }

  lemma RefIff(s: string)
    ensures IsRef(s) <==> IsSafe(s)
    ensures IsSession(s) <==> IsSafe(s) && '/' !in s && '.' !in s
    ensures IsNumber(s) <==> IsDigits(s)
  {
    if IsSession(s) {
      assert forall c <- s :: NameChar(c) && c != '.';
    }
  }

  lemma NamesHaveNoSlash(s: string)
    requires IsName(s)
    ensures s != "" && '/' !in s
  {
    assert forall c <- s :: NameChar(c);
  }

  lemma OneSlash(s: string, owner: string, name: string)
    requires owner != "" && name != "" && '/' !in owner && '/' !in name && s == owner + "/" + name
    ensures HasOneSlash(s)
  {
  }

  lemma ReposHaveOneSlash(repo: string)
    requires IsRepo(repo)
    ensures HasOneSlash(repo)
  {
    var slash := IndexOf(repo, '/').value;
    var owner, name := repo[..slash], repo[slash + 1..];
    NamesHaveNoSlash(owner);
    NamesHaveNoSlash(name);
    OneSlash(repo, owner, name);
  }

  lemma SafePartIsName(part: string, s: string, from: nat)
    requires IsSafe(s) && part != "" && '/' !in part && from + |part| <= |s| && part == s[from..from + |part|]
    ensures IsName(part)
  {
    forall i | 0 <= i < |part|
      ensures NameChar(part[i])
    {
      assert part[i] == s[from + i] && part[i] in part;
    }
  }

  lemma OneSlashIsRepo(s: string, owner: string, name: string)
    requires IsSafe(s) && owner != "" && name != "" && '/' !in owner && '/' !in name && s == owner + "/" + name
    ensures IsRepo(s)
  {
    assert s[..|owner|] == owner && s[|owner|] == '/' && s[|owner| + 1..] == name;
    IndexIs(s, '/', |owner|);
    SafePartIsName(owner, s, 0);
    SafePartIsName(name, s, |owner| + 1);
  }

  /** A marker is well formed exactly if its fields hold safe characters, the repository one slash inside, the session none and no dot, the pull request digits. */
  lemma WellFormedIff(m: SweMarker)
    ensures WellFormed(m) <==>
      && IsSafe(m.repo) && HasOneSlash(m.repo) && IsSafe(m.branch)
      && IsSafe(m.session) && '/' !in m.session && '.' !in m.session
      && (m.pr.Some? ==> IsDigits(m.pr.value))
  {
    RefIff(m.repo);
    RefIff(m.branch);
    RefIff(m.session);
    if m.pr.Some? {
      RefIff(m.pr.value);
    }
    if IsRepo(m.repo) {
      RepoChars(m.repo);
      ReposHaveOneSlash(m.repo);
    }
    if IsSafe(m.repo) && HasOneSlash(m.repo) {
      var owner: string, name: string :|
        owner != "" && name != "" && '/' !in owner && '/' !in name && m.repo == owner + "/" + name;
      OneSlashIsRepo(m.repo, owner, name);
    }
  }

  /** Whatever decodes holds letters, digits and `._-/` only, no shell metacharacter; a pull request is digits, a repository has one slash inside. */
  lemma DecodedIsSafe(token: Option<string>)
    requires Decode(token).Some?
    ensures var m := Decode(token).value;
      && IsSafe(m.repo) && HasOneSlash(m.repo) && IsSafe(m.branch) && IsSafe(m.session)
      && (m.pr.Some? ==> IsDigits(m.pr.value))
  {
    DecodedIsWellFormed(token);
    WellFormedIff(Decode(token).value);
  }

  lemma DecodeWellFormed(m: SweMarker)
    requires WellFormed(m)
    ensures Decode(Some(Encoded(m))) == Some(m)
  {
    PartsAreClean(m);
    WordsOfJoin(Parts(m));
    JoinIsClean(Parts(m));
    FieldsOfParts(m);
  }

  /** Exactly the well-formed markers survive encoding. */
  lemma DecodeEncode(m: SweMarker)
    ensures Decode(Some(Encoded(m))) == Some(m) <==> WellFormed(m)
  {
    if WellFormed(m) {
      DecodeWellFormed(m);
    } else {
      DecodedIsWellFormed(Some(Encoded(m)));
    }
  }

  /** A token in any spelling is brought to one normal form by decoding and encoding it. */
  lemma NormalForm(token: Option<string>)
    ensures var m := Decode(token); m.Some? ==> Decode(Some(Encoded(m.value))) == m
  {
    DecodedIsWellFormed(token);
    if Decode(token).Some? {
      DecodeWellFormed(Decode(token).value);
    }
  }

  // Across the two programs.

  lemma NoClose(s: string)
    requires '>' !in s
    ensures !HasClose(s)
  {
    forall i: nat | i < |s|
      ensures !CloseAt(s, i)
    {
      if i + |CLOSE| <= |s| {
        assert s[i..i + |CLOSE|][2] == s[i + 2];
      }
    }
  }

  /**
   * One episode encodes its marker, the orchestrator wraps it around the next goal, the next episode unwraps and
   * decodes it: the marker arrives as it was, for every goal, and the goal arrives without its leading newlines,
   * that is unchanged exactly when it has none.
   */
  lemma MarkerCrossesEpisodes(m: SweMarker, goal: string)
    requires WellFormed(m)
    ensures var received := Extract(Prepend(Encoded(m), goal));
      Decode(received.token) == Some(m)
      && received.text == DropNewlines(goal)
      && (received.text == goal <==> !StartsWithNewline(goal))
  {
    PartsAreClean(m);
    JoinIsClean(Parts(m));
    NoClose(Encoded(m));
    UnwrapClean(Encoded(m), goal);
    DropTwo(goal);
    DecodeWellFormed(m);
  }
}
