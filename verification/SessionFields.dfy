/** Fields of the session record over whole runs: whose it is, which run was last, and what each facade passes on. */
module SessionFields {
  import opened Text
  import opened Sessions
  import opened SessionRuns
  import opened SessionInvariants

  // Whose session it is.

  /** The subject of the first mark among the writes. */
  function FirstMark(writes: seq<MidTurn>): (subject: Option<string>) {
    if writes == [] then None
    else if FirstMark(Front(writes)).Some? then FirstMark(Front(writes))
    else if Last(writes).MarkAwaitingReply? then Some(Last(writes).subject)
    else None
  }

  function SubjectOf(record: Option<Record>): (subject: Option<string>) {
    if record.None? then None else Some(record.value.subject)
  }

  /** The subject a record has, if there is one: mid-turn writes and the mode patch keep it, and name one only for a new record. */
  function KeptSubject(subject: Option<string>, e: Event, mode: bool): (after: Option<string>)
    requires e.Turn? && !e.fate.NotStarted?
  {
    if subject.Some? then subject
    else if e.surface.Invoke? && mode then Some("")
    else FirstMark(e.fate.writes)
  }

  /** The subject of the last turn that wrote its outcome; before that the first one a mark named, empty if the mode patch came first. */
  function StampedSubject(events: seq<Event>): (subject: Option<string>) {
    if events == [] || Last(events).Lost? then None
    else
      var record, e := Run(Front(events)), Last(events);
      if e.Sweep? || e.fate.NotStarted? then StampedSubject(Front(events))
      else if Persists(record, e) then e.fate.subject
      else KeptSubject(StampedSubject(Front(events)), e, Mode(record, e.trigger))
  }

  /** Whatever record it finds, a write is in the name of the turn's own subject. */
  lemma WriteStampsSubject(existing: Option<Record>, subject: string, outcome: Outcome)
    ensures var r := Written(existing, subject, outcome); r.Some? ==> r.value.subject == subject
  {
  }

  lemma {:induction false} WritesKeepSubject(record: Option<Record>, writes: seq<MidTurn>)
    ensures SubjectOf(AfterWrites(record, writes)) == if record.Some? then SubjectOf(record) else FirstMark(writes)
  {
    if writes == [] {
    } else {
      WritesKeepSubject(record, Front(writes));
    }
  }

  lemma FoundSubject(record: Option<Record>, e: Event)
    requires e.Turn? && !e.fate.NotStarted?
    ensures SubjectOf(Found(record, e)) == KeptSubject(SubjectOf(record), e, Mode(record, e.trigger))
  {
    WritesKeepSubject(Opened(record, e.surface, e.trigger), e.fate.writes);
  }

  lemma TurnSubject(record: Option<Record>, e: Event)
    requires e.Turn? && !e.fate.NotStarted?
    ensures SubjectOf(After(record, e)) == if Persists(record, e) then e.fate.subject else SubjectOf(Found(record, e))
  {
    if e.fate.Ended? && e.fate.subject.Some? {
      WriteStampsSubject(Found(record, e), e.fate.subject.value, OutcomeOf(record, e));
    }
  }

  /** Over every run the record belongs to whoever last wrote an outcome to it. */
  lemma {:induction false} SubjectIsStamped(events: seq<Event>)
    ensures SubjectOf(Run(events)) == StampedSubject(events)
  {
    if events == [] {
    } else {
      var record, e := Run(Front(events)), Last(events);
      SubjectIsStamped(Front(events));
      if e.Turn? && !e.fate.NotStarted? {
        FoundSubject(record, e);
        TurnSubject(record, e);
      }
    }
  }

  /** A turn without an identity leaves the record as it found it. */
  lemma AnonymousTurnsWriteNothing(record: Option<Record>, e: Event)
    requires e.Turn? && e.fate.Ended? && e.fate.subject.None?
    ensures After(record, e) == Found(record, e)
  {
  }

  // Which run was last.

  function LastMark(writes: seq<MidTurn>): (run: Option<string>) {
    if writes == [] then None
    else if Last(writes).MarkAwaitingReply? then Some(Last(writes).runId)
    else LastMark(Front(writes))
  }

  function LastRunOf(record: Option<Record>): (run: Option<string>) {
    if record.None? then None else record.value.lastAgentRunId
  }

  /** The run last marked, or last named by an outcome that was written; kept after it is done. */
  function LatestRun(events: seq<Event>): (run: Option<string>) {
    if events == [] || Last(events).Lost? then None
    else
      var record, e, before := Run(Front(events)), Last(events), LatestRun(Front(events));
      if e.Sweep? || e.fate.NotStarted? then before
      else if Persists(record, e) && RunId(e.fate.state).Some? then RunId(e.fate.state)
      else if LastMark(e.fate.writes).Some? then LastMark(e.fate.writes)
      else before
  }

  lemma ForwardedRun(surface: Surface, state: Outcome, mode: bool)
    ensures RunId(Forwarded(surface, state, mode)) == RunId(state)
  {
  }

  lemma {:induction false} WritesMoveLastRun(record: Option<Record>, writes: seq<MidTurn>)
    ensures LastRunOf(AfterWrites(record, writes)) == if LastMark(writes).Some? then LastMark(writes) else LastRunOf(record)
  {
    if writes == [] {
    } else {
      WritesMoveLastRun(record, Front(writes));
    }
  }

  lemma WriteMovesLastRun(existing: Option<Record>, subject: string, outcome: Outcome)
    ensures var r := Written(existing, subject, outcome);
      r.Some? ==> LastRunOf(r) == if RunId(outcome).Some? then RunId(outcome) else LastRunOf(existing)
  {
    WrittenSharesBase(existing, subject, outcome);
  }

  lemma TurnMovesLastRun(record: Option<Record>, e: Event)
    requires e.Turn? && !e.fate.NotStarted?
    ensures LastRunOf(After(record, e)) ==
      if Persists(record, e) && RunId(e.fate.state).Some? then RunId(e.fate.state)
      else if LastMark(e.fate.writes).Some? then LastMark(e.fate.writes)
      else LastRunOf(record)
  {
    assert LastRunOf(Opened(record, e.surface, e.trigger)) == LastRunOf(record);
    WritesMoveLastRun(Opened(record, e.surface, e.trigger), e.fate.writes);
    if e.fate.Ended? {
      ForwardedRun(e.surface, e.fate.state, Mode(record, e.trigger));
      if e.fate.subject.Some? {
        WriteMovesLastRun(Found(record, e), e.fate.subject.value, OutcomeOf(record, e));
      }
    }
  }

  lemma {:induction false} LastRunIsAFold(events: seq<Event>)
    ensures LastRunOf(Run(events)) == LatestRun(events)
  {
    if events == [] {
    } else {
      var record, e := Run(Front(events)), Last(events);
      LastRunIsAFold(Front(events));
      if e.Turn? && !e.fate.NotStarted? {
        TurnMovesLastRun(record, e);
      }
    }
  }

  /** An empty run id is no run: it anchors nothing and is not the last one. */
  lemma EmptyRunIsNoRun(existing: Option<Record>, subject: string, outcome: Outcome)
    requires outcome.agentRunId == Some("") && Pause(outcome).None?
    ensures var r := Written(existing, subject, outcome);
      r.Some? ==> r.value.activeAgentRunId.None? && LastRunOf(r) == LastRunOf(existing)
  {
    WrittenSharesBase(existing, subject, outcome);
  }

  // The mode patch.

  /** The mode patch changes the mode and nothing else; a record it has to make is empty. */
  lemma PatchChangesOnlyTheMode(record: Option<Record>, readOnly: bool)
    ensures var r := WithMode(record, readOnly);
      && IsReadOnly(r) == readOnly
      && (record.Some? ==> r.Some? && r.value == record.value.(readOnly := readOnly))
      && (record.None? && r.Some? ==>
            && readOnly && Offers(r.value) == {} && r.value.subject == "" && r.value.lastAgentRunId.None?
            && r.value.toolContinuations == map[] && r.value.agentContinuations == map[])
  {
  }

  /** The sweep drops a sub-agent pause and leaves its run to be re-attached to, with its label; nothing else changes. */
  lemma SweepLeavesTheRun(record: Record, pause: SubAgentApproval)
    requires Sound(record) && record.subAgentApprovalPending == Some(pause)
    ensures var r := Swept(Some(record)).value;
      && Offers(r) == {AwaitReply(pause.agentId, pause.runId)} && r.runReadOnly == record.runReadOnly
      && r.subject == record.subject && r.readOnly == record.readOnly && r.lastAgentRunId == record.lastAgentRunId
      && r.toolContinuations == record.toolContinuations && r.agentContinuations == record.agentContinuations
  {
  }

  /** A mark leaves the run to be re-attached to and no skill; a clear leaves nothing of the run. */
  lemma MarkAndClear(record: Option<Record>, subject: string, agentId: string, runId: string, readOnly: bool)
    ensures var r := AfterWrite(record, MarkAwaitingReply(subject, agentId, runId, readOnly)).value;
      && r.activeAgentId == Some(agentId) && r.activeAgentRunId == Some(runId) && r.awaitingReply && r.runReadOnly == readOnly
      && r.activeSkillId.None?
    ensures var r := AfterWrite(record, ClearAwaitingReply);
      r.Some? ==>
        && r.value.activeAgentId.None? && r.value.activeAgentRunId.None? && !r.value.awaitingReply && !r.value.runReadOnly
        && r.value.activeSkillId == record.value.activeSkillId
  {
  }

  // What each facade passes on.

  function First(wishes: seq<Resume>): (wish: Resume) {
    if wishes == [] then Fresh else wishes[0]
  }

  /** The most urgent wish that gets through: `/invoke` drops a tool decision, streaming takes a lost channel for a question, if there is one. */
  function Passed(surface: Surface, state: Outcome): (wish: Resume) {
    var wishes := Wishes(state);
    match First(wishes)
    case DecideTool(_) => if surface.Invoke? then First(wishes[1..]) else wishes[0]
    case AwaitReply(agentId, runId) =>
      if !surface.Streaming? then wishes[0] else if state.agentAwaitingReply then AnswerQuestion(agentId, runId) else Fresh
    case wish => wish
  }

  lemma PausesAreNoRuns(state: Outcome)
    ensures Pauses(state) != [] ==> !Pauses(state)[0].AwaitReply? && !Pauses(state)[0].AnswerQuestion?
  {
  }

  lemma StreamedPauses(state: Outcome, mode: bool)
    ensures Pauses(Forwarded(Streaming, state, mode)) == Pauses(state)
  {
  }

  lemma StreamedRun(state: Outcome, mode: bool)
    ensures var w := First(RunWishes(state));
      First(RunWishes(Forwarded(Streaming, state, mode))) ==
        if !w.AwaitReply? then w else if state.agentAwaitingReply then AnswerQuestion(w.agentId, w.runId) else Fresh
    ensures !First(RunWishes(state)).DecideTool?
  {
  }

  lemma FirstOfTwo(pauses: seq<Resume>, runs: seq<Resume>)
    ensures First(pauses + runs) == if pauses == [] then First(runs) else pauses[0]
  {
  }

  lemma BlockingForwards(state: Outcome, mode: bool)
    ensures var blocking := Forwarded(Blocking, state, mode);
      Pauses(blocking) == Pauses(state) && RunWishes(blocking) == RunWishes(state)
  {
  }

  lemma BlockingPasses(state: Outcome, mode: bool)
    ensures First(Wishes(Forwarded(Blocking, state, mode))) == Passed(Blocking, state)
  {
    BlockingForwards(state, mode);
  }

  lemma InvokeForwards(state: Outcome, mode: bool)
    ensures var invoked, pauses := Forwarded(Invoke, state, mode), Pauses(state);
      && RunWishes(invoked) == RunWishes(state)
      && Pauses(invoked) == if pauses != [] && pauses[0].DecideTool? then pauses[1..] else pauses
  {
  }

  lemma InvokePasses(state: Outcome, mode: bool)
    ensures First(Wishes(Forwarded(Invoke, state, mode))) == Passed(Invoke, state)
  {
    var invoked, pauses := Forwarded(Invoke, state, mode), Pauses(state);
    InvokeForwards(state, mode);
    StreamedRun(state, mode);
    if pauses != [] && pauses[0].DecideTool? {
      assert (pauses + RunWishes(state))[1..] == pauses[1..] + RunWishes(state);
    }
  }

  lemma StreamingPasses(state: Outcome, mode: bool)
    ensures First(Wishes(Forwarded(Streaming, state, mode))) == Passed(Streaming, state)
  {
    var streamed := Forwarded(Streaming, state, mode);
    PausesAreNoRuns(state);
    StreamedPauses(state, mode);
    StreamedRun(state, mode);
    FirstOfTwo(Pauses(state), RunWishes(state));
    FirstOfTwo(Pauses(streamed), RunWishes(streamed));
  }

  /** Through every facade, a turn that writes offers the next turn exactly the most urgent wish of its final state that the facade passes on. */
  lemma NextTurnIsOffered(record: Option<Record>, e: Event, trigger: Option<bool>)
    requires Persists(record, e)
    ensures var session, wish := InputOf(After(record, e), trigger).session, Passed(e.surface, e.fate.state);
      session.Some? && Offers(session.value) == if wish.Fresh? then {} else {wish}
  {
    var mode := Mode(record, e.trigger);
    MostUrgentWishIsGranted(Found(record, e), e.fate.subject.value, OutcomeOf(record, e));
    match e.surface
    case Invoke => InvokePasses(e.fate.state, mode);
    case Blocking => BlockingPasses(e.fate.state, mode);
    case Streaming => StreamingPasses(e.fate.state, mode);
  }

  /** And a turn with an identity that has such a wish, or names a run, always writes. */
  lemma WishesAreWritten(record: Option<Record>, e: Event)
    requires e.Turn? && e.fate.Ended? && e.fate.subject.Some?
    requires !Passed(e.surface, e.fate.state).Fresh? || RunId(e.fate.state).Some?
    ensures Persists(record, e)
  {
    var mode := Mode(record, e.trigger);
    MostUrgentWishIsGranted(Found(record, e), e.fate.subject.value, OutcomeOf(record, e));
    ForwardedRun(e.surface, e.fate.state, mode);
    match e.surface
    case Invoke => InvokePasses(e.fate.state, mode);
    case Blocking => BlockingPasses(e.fate.state, mode);
    case Streaming => StreamingPasses(e.fate.state, mode);
  }
}
