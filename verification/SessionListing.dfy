/** Finding this run's session in a `claude agents --json --all` payload, and the snapshot of older ones. */
module SessionListing {
  import opened Text
  import opened Json

  datatype Status = Idle | Waiting | Busy

  datatype Session = Session(
    sessionId: string,
    shortId: Option<string>,
    failed: bool,
    status: Option<Status>,
    waitingFor: Option<string>)

  /** The session array of a payload: the payload itself, or its `sessions`. */
  function SessionsIn(parse: string -> Option<Json>, raw: string): (list: seq<Json>) {
    match parse(raw)
    case Some(Arr(items)) => items
    case Some(Obj(fields)) =>
      if "sessions" in fields && fields["sessions"].Arr? then fields["sessions"].items else []
    case _ => []
  }

  /** The id of an entry that counts as an interactive session at `cwd`; "" for any other entry. */
  function IdAt(entry: Json, cwd: string): (id: string) {
    if !IsObject(entry) || !Is(entry, "kind", "interactive") then ""
    else
      var entryCwd := StringField(entry, "cwd");
      if entryCwd != cwd && !(cwd + "/" <= entryCwd) && !(cwd <= entryCwd) then ""
      else StringField(entry, "sessionId")
  }

  predicate TerminalFailed(text: string) {
    text in ["failed", "error", "errored"]
  }

  function StatusOf(text: string): (status: Option<Status>) {
    if text == "idle" then Some(Idle)
    else if text == "waiting" then Some(Waiting)
    else if text == "busy" then Some(Busy)
    else None
  }

  function Describe(entry: Json, id: string): (session: Session) {
    var state, rawStatus := Lower(TextOrEmpty(entry, "state")), Lower(TextOrEmpty(entry, "status"));
    var waitingFor := StringField(entry, "waitingFor");
    Session(
      id,
      match Field(entry, "id") case Some(Str(s)) => Some(s) case _ => None,
      TerminalFailed(state) || TerminalFailed(rawStatus),
      StatusOf(rawStatus),
      if waitingFor == "" then None else Some(waitingFor))
  }

  /** A payload lists its own array, or the array under `sessions`; anything else lists nothing. */
  lemma PayloadShapes(parse: string -> Option<Json>, raw: string, items: seq<Json>)
    ensures parse(raw) == Some(Arr(items)) ==> SessionsIn(parse, raw) == items
    ensures parse(raw).Some? && Field(parse(raw).value, "sessions") == Some(Arr(items)) ==> SessionsIn(parse, raw) == items
    ensures parse(raw).None? || (!parse(raw).value.Arr? && !parse(raw).value.Obj?) ==> SessionsIn(parse, raw) == []
  {
  }

  predicate HasText(entry: Json, key: string, text: string) {
    Field(entry, key) == Some(Str(text))
  }

  /** An entry carries `id` exactly if it is interactive, has that id, and `cwd` is a prefix of its own directory. */
  lemma IdIff(entry: Json, cwd: string, id: string)
    requires id != ""
    ensures IdAt(entry, cwd) == id <==>
      && HasText(entry, "kind", "interactive") && HasText(entry, "sessionId", id)
      && (cwd == "" || exists at: string :: cwd <= at && HasText(entry, "cwd", at))
  {
    if IdAt(entry, cwd) == id && cwd != "" {
      assert HasText(entry, "cwd", StringField(entry, "cwd"));
    }
  }

  /** A status is one of the three words in any case, anything else is no status; failure is one of three words in either field. */
  lemma StatusIsRead(entry: Json, id: string, state: string, status: string)
    requires HasText(entry, "state", state) && HasText(entry, "status", status)
    ensures var s := Describe(entry, id);
      && s.sessionId == id
      && (s.status == Some(Idle) <==> Lower(status) == "idle")
      && (s.status == Some(Waiting) <==> Lower(status) == "waiting")
      && (s.status == Some(Busy) <==> Lower(status) == "busy")
      && (s.failed <==> exists word <- ["failed", "error", "errored"] :: Lower(state) == word || Lower(status) == word)
  {
  }

  /** The short id and the waiting reason are the entry's own texts; an empty reason is none. */
  lemma DetailsAreRead(entry: Json, id: string, shortId: string, reason: string)
    requires HasText(entry, "id", shortId) && HasText(entry, "waitingFor", reason)
    ensures Describe(entry, id).shortId == Some(shortId)
    ensures Describe(entry, id).waitingFor == if reason == "" then None else Some(reason)
  {
  }

  /** An entry without either field has no status and has not failed. */
  lemma NoStatusIsRead(entry: Json, id: string)
    requires Field(entry, "state").None? && Field(entry, "status").None?
    ensures Describe(entry, id).status.None? && !Describe(entry, id).failed
  {
  }

  /** The first matching entry whose id is not excluded. */
  function Find(list: seq<Json>, cwd: string, exclude: set<string>): (found: Option<Session>) {
    if list == [] then None
    else
      var id := IdAt(list[0], cwd);
      if id == "" || id in exclude then Find(list[1..], cwd, exclude)
      else Some(Describe(list[0], id))
  }

  function FindInteractiveSession(
    parse: string -> Option<Json>, raw: string, cwd: string, exclude: set<string>): (found: Option<Session>)
  {
    Find(SessionsIn(parse, raw), cwd, exclude)
  }

  /** Every id some entry of the listing carries at `cwd`. */
  function IdsAt(list: seq<Json>, cwd: string): (ids: set<string>) {
    (set entry | entry in list :: IdAt(entry, cwd)) - {""}
  }

  lemma IdsOfFirst(list: seq<Json>, cwd: string)
    requires list != []
    ensures IdsAt(list, cwd) == ({IdAt(list[0], cwd)} - {""}) + IdsAt(list[1..], cwd)
  {
    assert list == [list[0]] + list[1..];
    assert list[0] in list;
  }

  /**
   * A lookup is complete and respects its exclusions: it answers with a listed, non-excluded id whenever one
   * exists, and with nothing only when none does.
   */
  lemma {:induction false} FindIsExact(list: seq<Json>, cwd: string, exclude: set<string>)
    ensures Find(list, cwd, exclude).None? <==> IdsAt(list, cwd) <= exclude
    ensures var found := Find(list, cwd, exclude);
      found.Some? ==> found.value.sessionId in IdsAt(list, cwd) && found.value.sessionId !in exclude
  {
    if list == [] {
    } else {
      FindIsExact(list[1..], cwd, exclude);
      IdsOfFirst(list, cwd);
    }
  }

  predicate Qualifies(entry: Json, cwd: string, exclude: set<string>) {
    IdAt(entry, cwd) != "" && IdAt(entry, cwd) !in exclude
  }

  /** What is found is the description of the first entry that qualifies. */
  lemma {:induction false} FindIsFirst(list: seq<Json>, cwd: string, exclude: set<string>, i: nat)
    requires i < |list| && Qualifies(list[i], cwd, exclude)
    requires forall j :: 0 <= j < i ==> !Qualifies(list[j], cwd, exclude)
    ensures Find(list, cwd, exclude) == Some(Describe(list[i], IdAt(list[i], cwd)))
  {
    if i == 0 {
    } else {
      assert !Qualifies(list[0], cwd, exclude);
      assert forall j :: 0 <= j < i - 1 ==> list[1..][j] == list[j + 1];
      FindIsFirst(list[1..], cwd, exclude, i - 1);
    }
  }

  /** The snapshot taken before the run: look up repeatedly, excluding what was already seen. */
  method ListInteractiveSessionIds(parse: string -> Option<Json>, raw: string, cwd: string) returns (ids: set<string>)
    ensures ids == IdsAt(SessionsIn(parse, raw), cwd)
  {
    ids := {};
    var seen: set<string> := {};
    ghost var all := IdsAt(SessionsIn(parse, raw), cwd);
    FindIsExact(SessionsIn(parse, raw), cwd, seen);
    var found := FindInteractiveSession(parse, raw, cwd, seen);
    while found.Some?
      invariant ids == seen <= all
      invariant found == Find(SessionsIn(parse, raw), cwd, seen)
      invariant found.None? ==> all <= seen
      invariant found.Some? ==> found.value.sessionId in all - seen
      decreases all - seen
    {
      ids := ids + {found.value.sessionId};
      seen := seen + {found.value.sessionId};
      FindIsExact(SessionsIn(parse, raw), cwd, seen);
      found := FindInteractiveSession(parse, raw, cwd, seen);
    }
  }

  /** The snapshot holds an id exactly when some lookup in that payload can answer with it. */
  lemma SnapshotIsWhatLookupsCanReturn(list: seq<Json>, cwd: string, id: string)
    ensures id in IdsAt(list, cwd) <==>
      exists exclude :: Find(list, cwd, exclude).Some? && Find(list, cwd, exclude).value.sessionId == id
  {
    forall exclude ensures var found := Find(list, cwd, exclude);
        found.Some? ==> found.value.sessionId in IdsAt(list, cwd)
    {
      FindIsExact(list, cwd, exclude);
    }
    if id in IdsAt(list, cwd) {
      var others := IdsAt(list, cwd) - {id};
      FindIsExact(list, cwd, others);
      assert Find(list, cwd, others).value.sessionId == id;
    }
  }

  /**
   * A later lookup that excludes the snapshot never answers with a session that existed before the run, and it
   * does find the run's own session as soon as the later listing shows any new one.
   */
  lemma SnapshotExcludesOlderSessions(before: seq<Json>, later: seq<Json>, cwd: string)
    ensures var found := Find(later, cwd, IdsAt(before, cwd));
      && (found.Some? ==> found.value.sessionId in IdsAt(later, cwd) - IdsAt(before, cwd))
      && (found.Some? ==> forall exclude ::
            Find(before, cwd, exclude).Some? ==> Find(before, cwd, exclude).value.sessionId != found.value.sessionId)
      && (found.None? <==> IdsAt(later, cwd) <= IdsAt(before, cwd))
  {
    FindIsExact(later, cwd, IdsAt(before, cwd));
    forall exclude ensures var listed := Find(before, cwd, exclude);
        listed.Some? ==> listed.value.sessionId in IdsAt(before, cwd)
    {
      FindIsExact(before, cwd, exclude);
    }
  }
}
