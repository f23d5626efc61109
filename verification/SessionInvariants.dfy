/** What every sequence of serial turns keeps true of the session record. */
module SessionInvariants {
  import opened Text
  import opened Sessions
  import opened SessionRuns

  // What is assumed of the graph: it reports read-only only on a read-only turn, launches runs under new ids in
  // its own turn's mode, and names in its outcome only the anchored run or a run it launched this turn.

  function Marked(writes: seq<MidTurn>): (runs: set<string>) {
    set w | w in writes && w.MarkAwaitingReply? :: w.runId
  }

  function Pause(state: Outcome): (pending: Option<SubAgentApproval>) {
    if state.subAgentApprovalWaiting then state.subAgentApprovalPending else None
  }

  /** The runs a final state names. */
  function Named(state: Outcome): (runs: set<string>) {
    (if RunId(state).Some? then {RunId(state).value} else {})
    + (if Pause(state).Some? then {Pause(state).value.runId} else {})
  }

  predicate Anchors(record: Option<Record>, run: string) {
    record.Some? && record.value.activeAgentRunId == Some(run)
  }

  predicate GraphAllows(record: Option<Record>, launched: map<string, bool>, e: Event) {
    e.Turn? && !e.fate.NotStarted? ==>
      && (e.trigger.Some? ==> e.surface.Invoke?)
      && (forall w <- e.fate.writes | w.MarkAwaitingReply? ::
            w.runId !in launched && w.readOnly == Mode(record, e.trigger))
      && (e.fate.Ended? ==>
            && (e.fate.state.readOnly ==> Mode(record, e.trigger))
            && forall run <- Named(e.fate.state) :: Anchors(record, run) || run !in launched)
  }

  /** Every run launched so far with the mode it was launched in. */
  function LaunchedAfter(record: Option<Record>, launched: map<string, bool>, e: Event): (all: map<string, bool>) {
    if !e.Turn? || e.fate.NotStarted? then launched
    else
      var runs := Marked(e.fate.writes) + (if e.fate.Ended? then Named(e.fate.state) else {});
      (map run | run in runs :: Mode(record, e.trigger)) + launched
  }

  function Launched(events: seq<Event>): (all: map<string, bool>) {
    if events == [] then map[] else LaunchedAfter(Run(Front(events)), Launched(Front(events)), Last(events))
  }

  predicate Allowed(events: seq<Event>) {
    events != [] ==> Allowed(Front(events)) && GraphAllows(Run(Front(events)), Launched(Front(events)), Last(events))
  }

  /** Whatever branch of the cascade it takes, a write carries the tokens, the last run and the mode. */
  predicate SharesBase(r: Record, base: Record) {
    && r.toolContinuations == base.toolContinuations && r.agentContinuations == base.agentContinuations
    && r.lastAgentRunId == base.lastAgentRunId && r.readOnly == base.readOnly
  }

  lemma WrittenSharesBase(existing: Option<Record>, subject: string, outcome: Outcome)
    ensures var r := Written(existing, subject, outcome);
      if r.Some? then SharesBase(r.value, Base(existing, subject, outcome))
      else outcome.extractedContinuation.None? && outcome.extractedAgentContinuation.None?
           && (outcome.readOnly ==> IsReadOnly(existing))
  {
  }

  // Sticky read-only mode.

  /** The mode of the latest trigger turn that got as far as recording it; writable if none, or once the record is lost. */
  function LatestMode(events: seq<Event>): (readOnly: bool) {
    if events == [] || Last(events).Lost? then false
    else
      var e := Last(events);
      if e.Turn? && !e.fate.NotStarted? && e.trigger.Some? then e.trigger.value else LatestMode(Front(events))
  }

  lemma {:induction false} WritesKeepMode(record: Option<Record>, writes: seq<MidTurn>)
    ensures IsReadOnly(AfterWrites(record, writes)) == IsReadOnly(record)
  {
    if writes == [] {
    } else {
      WritesKeepMode(record, Front(writes));
    }
  }

  lemma PersistedMode(existing: Option<Record>, subject: Option<string>, outcome: Outcome)
    ensures IsReadOnly(Persisted(existing, subject, outcome)) ==
      (IsReadOnly(existing) || (subject.Some? && outcome.readOnly))
  {
    if subject.Some? {
      WrittenSharesBase(existing, subject.value, outcome);
      assert Base(existing, subject.value, outcome).readOnly == (IsReadOnly(existing) || outcome.readOnly);
    }
  }

  /** The turn's mode is on record before the graph is called, and its outcome leaves it there. */
  lemma TurnMode(record: Option<Record>, launched: map<string, bool>, e: Event)
    requires e.Turn? && !e.fate.NotStarted? && GraphAllows(record, launched, e)
    ensures IsReadOnly(After(record, e)) == Mode(record, e.trigger)
  {
    var mode := Mode(record, e.trigger);
    assert IsReadOnly(Opened(record, e.surface, e.trigger)) == mode;
    WritesKeepMode(Opened(record, e.surface, e.trigger), e.fate.writes);
    if e.fate.Ended? {
      PersistedMode(Found(record, e), e.fate.subject, Forwarded(e.surface, e.fate.state, mode));
    }
  }

  /**
   * Sticky read-only: over every sequence of serial turns, whatever branch each one's outcome takes and wherever
   * it crashes, a trigger turn runs in its own mode and any other turn in the mode of the latest trigger turn.
   */
  lemma {:induction false} ReadOnlyIsSticky(events: seq<Event>, trigger: Option<bool>)
    requires Allowed(events)
    ensures Mode(Run(events), trigger) == if trigger.Some? then trigger.value else LatestMode(events)
    ensures IsReadOnly(Run(events)) == LatestMode(events)
  {
    if events == [] {
    } else {
      var e, record := Last(events), Run(Front(events));
      ReadOnlyIsSticky(Front(events), None);
      if e.Turn? && !e.fate.NotStarted? {
        TurnMode(record, Launched(Front(events)), e);
      }
    }
  }

  /** A turn makes a read-only session writable exactly if it is a writable trigger turn that starts: the mode is not monotonic. */
  lemma ReadOnlyIsClearedIff(events: seq<Event>)
    requires events != [] && Allowed(events) && IsReadOnly(Run(Front(events))) && !Last(events).Lost?
    ensures !IsReadOnly(Run(events)) <==>
      var e := Last(events); e.Turn? && !e.fate.NotStarted? && e.trigger == Some(false)
  {
    ReadOnlyIsSticky(Front(events), None);
    ReadOnlyIsSticky(events, None);
  }

  /** A read-only trigger turn and then a writable one, each doing nothing at all. */
  lemma ReadOnlyIsNotMonotonic()
    ensures var first, second := Turn(Invoke, Some(true), Crashed([])), Turn(Invoke, Some(false), Crashed([]));
      Allowed([first, second]) && IsReadOnly(Run([first])) && !IsReadOnly(Run([first, second]))
  {
    var first, second := Turn(Invoke, Some(true), Crashed([])), Turn(Invoke, Some(false), Crashed([]));
    assert Front([first]) == [] && Front([first, second]) == [first];
    assert Allowed([]) && Allowed([first]);
    ReadOnlyIsSticky([first], None);
    ReadOnlyIsSticky([first, second], None);
  }

  // Which way the next turn resumes.

  datatype Resume =
    | Fresh
    | DecideTool(call: ToolApproval)
    | DecideSubAgent(pause: SubAgentApproval)
    | PollLink(link: IdentityLink)
    | ContinueSkill(skillId: string)
    | AwaitReply(agentId: string, runId: string)
    | AnswerQuestion(agentId: string, runId: string)

  /** Every way to resume a record offers, in no particular order. */
  function Offers(r: Record): (offers: set<Resume>) {
    (if r.approvalPending.Some? then {DecideTool(r.approvalPending.value)} else {})
    + (if r.pendingIdentityLink.Some? then {PollLink(r.pendingIdentityLink.value)} else {})
    + (if r.activeSkillId.Some? then {ContinueSkill(r.activeSkillId.value)} else {})
    + (if r.subAgentApprovalPending.Some? then {DecideSubAgent(r.subAgentApprovalPending.value)} else {})
    + (if r.subAgentApprovalPending.Some? || r.activeAgentRunId.None? || r.activeAgentId.None? then {}
       else if r.awaitingReply then {AwaitReply(r.activeAgentId.value, r.activeAgentRunId.value)}
       else {AnswerQuestion(r.activeAgentId.value, r.activeAgentRunId.value)})
  }

  /** What an outcome asks for ahead of its run, the most urgent first; a pending link may come without its details. */
  function Pauses(outcome: Outcome): (wishes: seq<Resume>) {
    (if outcome.approvalWaiting && outcome.approvalPending.Some? then [DecideTool(outcome.approvalPending.value)] else [])
    + (if Pause(outcome).Some? then [DecideSubAgent(Pause(outcome).value)] else [])
    + (if !outcome.identityLinkPending then []
       else if outcome.pendingIdentityLink.Some? then [PollLink(outcome.pendingIdentityLink.value)] else [Fresh])
    + (if outcome.selectedSkill.Some? then [ContinueSkill(outcome.selectedSkill.value)] else [])
  }

  function RunWishes(outcome: Outcome): (wishes: seq<Resume>) {
    if outcome.selectedAgent.None? || RunId(outcome).None? then []
    else if outcome.agentResumePending then [AwaitReply(outcome.selectedAgent.value, RunId(outcome).value)]
    else if outcome.agentAwaitingReply then [AnswerQuestion(outcome.selectedAgent.value, RunId(outcome).value)]
    else []
  }

  function Wishes(outcome: Outcome): (wishes: seq<Resume>) {
    Pauses(outcome) + RunWishes(outcome)
  }

  lemma PauseIsGranted(existing: Option<Record>, subject: string, outcome: Outcome)
    requires Pauses(outcome) != []
    ensures var r, wish := Written(existing, subject, outcome), Pauses(outcome)[0];
      r.Some? && Offers(r.value) == if wish == Fresh then {} else {wish}
  {
  }

  lemma RunIsGranted(existing: Option<Record>, subject: string, outcome: Outcome)
    requires Pauses(outcome) == []
    ensures var r, wishes := Written(existing, subject, outcome), RunWishes(outcome);
      && (r.None? ==> wishes == [] && RunId(outcome).None?)
      && (r.Some? ==> Offers(r.value) == if wishes == [] then {} else {wishes[0]})
  {
  }

  /** What is written offers exactly the most urgent thing the outcome asks for, and is not written only if it asks for nothing. */
  lemma MostUrgentWishIsGranted(existing: Option<Record>, subject: string, outcome: Outcome)
    ensures var r, wishes := Written(existing, subject, outcome), Wishes(outcome);
      && (r.None? ==> wishes == [] && RunId(outcome).None?)
      && (r.Some? ==> Offers(r.value) == if wishes == [] || wishes[0] == Fresh then {} else {wishes[0]})
  {
    if Pauses(outcome) != [] {
      PauseIsGranted(existing, subject, outcome);
    } else {
      RunIsGranted(existing, subject, outcome);
    }
  }

  // The anchored run's mode.

  predicate LabelOk(record: Option<Record>, launched: map<string, bool>) {
    record.Some? && record.value.activeAgentRunId.Some? ==>
      var run := record.value.activeAgentRunId.value; run in launched && record.value.runReadOnly == launched[run]
  }

  /** What the turn's facade hands to `persistSession`. */
  function OutcomeOf(record: Option<Record>, e: Event): (outcome: Outcome)
    requires e.Turn? && e.fate.Ended?
  {
    Forwarded(e.surface, e.fate.state, Mode(record, e.trigger))
  }

  /** The most urgent thing the outcome asks for is to go on with this run. */
  predicate WantsAnchor(outcome: Outcome, run: string) {
    Wishes(outcome) != [] &&
      match Wishes(outcome)[0]
      case DecideSubAgent(pause) => pause.runId == run
      case AwaitReply(_, runId) => runId == run
      case AnswerQuestion(_, runId) => runId == run
      case _ => false
  }

  lemma AnchoredIffWanted(found: Option<Record>, subject: Option<string>, outcome: Outcome, run: string)
    requires !Anchors(found, run)
    ensures Anchors(Persisted(found, subject, outcome), run) <==> subject.Some? && WantsAnchor(outcome, run)
  {
  }

  /** A mid-turn write has dropped the anchor of a run of the other mode, and the turn's outcome asks to go on with that run. */
  predicate Relabels(record: Option<Record>, launched: map<string, bool>, e: Event) {
    && e.Turn? && e.fate.Ended? && e.fate.subject.Some? && record.Some? && record.value.activeAgentRunId.Some?
    && var run := record.value.activeAgentRunId.value;
       && run in launched && launched[run] != Mode(record, e.trigger)
       && !Anchors(Found(record, e), run) && WantsAnchor(OutcomeOf(record, e), run)
  }

  lemma {:induction false} WritesAnchor(record: Option<Record>, writes: seq<MidTurn>)
    ensures var r := AfterWrites(record, writes);
      r.Some? && r.value.activeAgentRunId.Some? ==>
        || (record.Some? && r.value.activeAgentRunId == record.value.activeAgentRunId
            && r.value.runReadOnly == record.value.runReadOnly)
        || exists w <- writes :: w.MarkAwaitingReply? && r.value.activeAgentRunId == Some(w.runId) && r.value.runReadOnly == w.readOnly
  {
    if writes == [] {
    } else {
      WritesAnchor(record, Front(writes));
      assert Last(writes) in writes && forall w <- Front(writes) :: w in writes;
    }
  }

  /** After the mid-turn writes the anchor is the old one with its label, or a run launched this turn in its mode. */
  lemma FoundLabel(record: Option<Record>, launched: map<string, bool>, e: Event)
    requires e.Turn? && !e.fate.NotStarted? && GraphAllows(record, launched, e) && LabelOk(record, launched)
    ensures LabelOk(Found(record, e), LaunchedAfter(record, launched, e))
    ensures var found := Found(record, e);
      found.Some? && found.value.activeAgentRunId.Some? ==>
        Anchors(record, found.value.activeAgentRunId.value) || found.value.activeAgentRunId.value !in launched
  {
    WritesAnchor(Opened(record, e.surface, e.trigger), e.fate.writes);
  }

  /** What `persistSession` anchors: nothing, what it found, or a named run labelled by `RunReadOnly`. */
  lemma PersistedAnchor(existing: Option<Record>, subject: Option<string>, outcome: Outcome)
    ensures var r := Persisted(existing, subject, outcome);
      r == existing || (r.Some? &&
        (r.value.activeAgentRunId.Some? ==>
          && r.value.activeAgentRunId.value in Named(outcome)
          && r.value.runReadOnly == RunReadOnly(existing, outcome, r.value.activeAgentRunId.value)))
  {
  }

  lemma LabelOfAnchor(found: Option<Record>, r: Option<Record>, outcome: Outcome, all: map<string, bool>)
    requires LabelOk(found, all)
    requires r == found || (r.Some? &&
      (r.value.activeAgentRunId.Some? ==>
        && r.value.activeAgentRunId.value in all
        && r.value.runReadOnly == RunReadOnly(found, outcome, r.value.activeAgentRunId.value)))
    ensures LabelOk(r, all) <==>
      (r.Some? && r.value.activeAgentRunId.Some? && !Anchors(found, r.value.activeAgentRunId.value) ==>
        all[r.value.activeAgentRunId.value] == outcome.readOnly)
  {
  }

  lemma RunsKnown(record: Option<Record>, launched: map<string, bool>, e: Event, run: string)
    requires e.Turn? && e.fate.Ended? && GraphAllows(record, launched, e) && LabelOk(record, launched)
    requires run in Named(e.fate.state)
    ensures var all := LaunchedAfter(record, launched, e);
      run in all && all[run] == if run in launched then launched[run] else Mode(record, e.trigger)
    ensures run in launched ==> Anchors(record, run)
  {
  }

  lemma ForwardedNames(surface: Surface, state: Outcome, mode: bool)
    requires state.readOnly ==> mode
    ensures Forwarded(surface, state, mode).readOnly == mode
    ensures Named(Forwarded(surface, state, mode)) == Named(state)
  {
  }

  lemma EndedLabel(record: Option<Record>, launched: map<string, bool>, e: Event)
    requires e.Turn? && e.fate.Ended? && GraphAllows(record, launched, e) && LabelOk(record, launched)
    ensures LabelOk(After(record, e), LaunchedAfter(record, launched, e)) <==> !Relabels(record, launched, e)
  {
    var found, all, outcome := Found(record, e), LaunchedAfter(record, launched, e), OutcomeOf(record, e);
    var r := After(record, e);
    ForwardedNames(e.surface, e.fate.state, Mode(record, e.trigger));
    FoundLabel(record, launched, e);
    PersistedAnchor(found, e.fate.subject, outcome);
    if r != found && r.value.activeAgentRunId.Some? {
      RunsKnown(record, launched, e, r.value.activeAgentRunId.value);
    }
    LabelOfAnchor(found, r, outcome, all);
    if record.Some? && record.value.activeAgentRunId.Some? && !Anchors(found, record.value.activeAgentRunId.value) {
      AnchoredIffWanted(found, e.fate.subject, outcome, record.value.activeAgentRunId.value);
    }
  }

  /** One turn keeps the label right exactly when it does not relabel. */
  lemma LabelStep(record: Option<Record>, launched: map<string, bool>, e: Event)
    requires GraphAllows(record, launched, e) && LabelOk(record, launched)
    ensures LabelOk(After(record, e), LaunchedAfter(record, launched, e)) <==> !Relabels(record, launched, e)
  {
    if e.Turn? && e.fate.Ended? {
      EndedLabel(record, launched, e);
    } else if e.Turn? && e.fate.Crashed? {
      FoundLabel(record, launched, e);
    }
  }

  predicate NeverRelabels(events: seq<Event>) {
    events != [] ==>
      NeverRelabels(Front(events)) && !Relabels(Run(Front(events)), Launched(Front(events)), Last(events))
  }

  /**
   * Over every sequence of turns of any modes, with pauses, re-attachments and mode patches in either direction,
   * the anchored run carries the mode it was launched with, and the last turn breaks that exactly if it relabels.
   */
  lemma {:induction false} RunModeIsKept(events: seq<Event>)
    requires Allowed(events) && (events == [] || NeverRelabels(Front(events)))
    ensures LabelOk(Run(events), Launched(events)) <==> NeverRelabels(events)
  {
    if events == [] {
    } else {
      RunModeIsKept(Front(events));
      LabelStep(Run(Front(events)), Launched(Front(events)), Last(events));
    }
  }

  predicate NoMidTurnWrites(events: seq<Event>) {
    forall e <- events | e.Turn? && !e.fate.NotStarted? :: e.fate.writes == []
  }

  /** Through `persistSession` and `setSessionReadOnly` alone, that is without mid-turn writes, no turn relabels. */
  lemma {:induction false} WithoutWritesNeverRelabels(events: seq<Event>)
    requires NoMidTurnWrites(events)
    ensures NeverRelabels(events)
  {
    if events == [] {
    } else {
      assert Last(events) in events && forall e <- Front(events) :: e in events;
      WithoutWritesNeverRelabels(Front(events));
    }
  }

  function Quiet(): (state: Outcome) {
    Outcome(None, None, None, false, false, None, None, None, false, None, false, None, false, false)
  }

  /** The graph's gate on prompts (agent/graph.ts:2222): a read-only turn must not steer a run labelled writable. */
  predicate AdmitsPrompt(input: GraphInput)
    requires input.session.Some?
  {
    !(input.readOnly && !input.session.value.runReadOnly && !input.session.value.awaitingReply)
  }

  /** With the label right, the gate lets a read-only turn answer a run's question exactly if the run was launched read-only. */
  lemma GateIsRight(record: Option<Record>, launched: map<string, bool>)
    requires LabelOk(record, launched) && record.Some? && record.value.activeAgentRunId.Some? && !record.value.awaitingReply
    ensures AdmitsPrompt(InputOf(record, Some(true))) <==> launched[record.value.activeAgentRunId.value]
  {
  }

  function Launch(subject: string, agent: string, run: string, mode: bool): (e: Event) {
    Turn(Invoke, Some(mode), Crashed([MarkAwaitingReply(subject, agent, run, mode)]))
  }

  function Question(agent: string, run: string): (state: Outcome) {
    Quiet().(selectedAgent := Some(agent), agentRunId := Some(run), agentAwaitingReply := true)
  }

  function Reattach(subject: string, agent: string, run: string, mode: bool): (e: Event) {
    Turn(Invoke, Some(mode), Ended([ClearAwaitingReply], Some(subject), Question(agent, run)))
  }

  lemma AfterLaunch(subject: string, agent: string, run: string, mode: bool)
    ensures var events := [Launch(subject, agent, run, mode)];
      Allowed(events) && Launched(events) == map[run := mode]
      && Anchors(Run(events), run) && Run(events).value.runReadOnly == mode && Run(events).value.awaitingReply
  {
    var e := Launch(subject, agent, run, mode);
    assert Front([e]) == [];
    assert Front(e.fate.writes) == [];
    assert Marked(e.fate.writes) == {run};
  }

  /**
   * The mid-turn clear does relabel, in either direction: a trigger turn of one mode launches a run and dies; a trigger
   * turn of the other mode re-attaches, drops the anchor because the reply is already recorded, and anchors the run
   * again for its question. A run launched writable then passes the gate as read-only.
   */
  lemma ReattachRelabels(subject: string, agent: string, run: string, mode: bool)
    requires run != ""
    ensures var events := [Launch(subject, agent, run, mode), Reattach(subject, agent, run, !mode)];
      && Allowed(events) && Launched(events) == map[run := mode]
      && Anchors(Run(events), run) && Run(events).value.runReadOnly == !mode && !Run(events).value.awaitingReply
      && (!mode ==> AdmitsPrompt(InputOf(Run(events), Some(true))))
  {
    AfterLaunch(subject, agent, run, mode);
    var launch, e := Launch(subject, agent, run, mode), Reattach(subject, agent, run, !mode);
    assert Front([launch, e]) == [launch];
    assert Front(e.fate.writes) == [];
    assert Named(e.fate.state) == {run} && Marked(e.fate.writes) == {};
  }

  // One resume mode at a time.

  /** At most one way to resume, its parts consistent with one another. */
  predicate Sound(r: Record) {
    var anchored := r.activeAgentRunId.Some?;
    && (r.activeAgentId.Some? <==> anchored)
    && (r.awaitingReply || r.runReadOnly ==> anchored)
    && (anchored ==> r.lastAgentRunId == r.activeAgentRunId)
    && (r.approvalPending.Some? ==>
          r.subAgentApprovalPending.None? && r.pendingIdentityLink.None? && r.activeSkillId.None? && !anchored)
    && (r.pendingIdentityLink.Some? ==> r.subAgentApprovalPending.None? && r.activeSkillId.None? && !anchored)
    && (r.activeSkillId.Some? ==> r.subAgentApprovalPending.None? && !anchored)
    && (r.subAgentApprovalPending.Some? ==>
          && r.activeAgentId == Some(r.subAgentApprovalPending.value.agentId)
          && r.activeAgentRunId == Some(r.subAgentApprovalPending.value.runId)
          && r.awaitingReply)
  }

  predicate AllSound(record: Option<Record>) {
    record.Some? ==> Sound(record.value)
  }

  /** The run `lastAgentRunId` will name. */
  function LastRun(existing: Option<Record>, outcome: Outcome): (run: Option<string>) {
    if RunId(outcome).Some? || existing.None? then RunId(outcome) else existing.value.lastAgentRunId
  }

  /** A sub-agent pause that is the most urgent thing in the outcome concerns the last run. */
  predicate PauseNamesLastRun(existing: Option<Record>, outcome: Outcome) {
    Wishes(outcome) != [] && Wishes(outcome)[0].DecideSubAgent? ==>
      LastRun(existing, outcome) == Some(Wishes(outcome)[0].pause.runId)
  }

  predicate PauseComesFirst(outcome: Outcome) {
    Wishes(outcome) != [] && Wishes(outcome)[0].DecideSubAgent?
  }

  lemma PauseIsSoundIff(existing: Option<Record>, subject: string, outcome: Outcome)
    requires PauseComesFirst(outcome)
    ensures var r := Written(existing, subject, outcome);
      r.Some? && (Sound(r.value) <==> PauseNamesLastRun(existing, outcome))
  {
  }

  lemma OtherPauseIsSound(existing: Option<Record>, subject: string, outcome: Outcome)
    requires !PauseComesFirst(outcome) && Pauses(outcome) != []
    ensures AllSound(Written(existing, subject, outcome))
  {
  }

  lemma RunIsSound(existing: Option<Record>, subject: string, outcome: Outcome)
    requires Pauses(outcome) == []
    ensures AllSound(Written(existing, subject, outcome))
  {
  }

  lemma OtherwiseSound(existing: Option<Record>, subject: string, outcome: Outcome)
    requires !PauseComesFirst(outcome)
    ensures AllSound(Written(existing, subject, outcome))
  {
    if Pauses(outcome) != [] {
      OtherPauseIsSound(existing, subject, outcome);
    } else {
      RunIsSound(existing, subject, outcome);
    }
  }

  /** Whatever record it finds, sound or not, `persistSession` writes a sound one exactly if a pause names the last run. */
  lemma WriteIsSound(existing: Option<Record>, subject: string, outcome: Outcome)
    ensures var r := Written(existing, subject, outcome);
      r.Some? ==> (Sound(r.value) <==> PauseNamesLastRun(existing, outcome))
  {
    if PauseComesFirst(outcome) {
      PauseIsSoundIff(existing, subject, outcome);
    } else {
      OtherwiseSound(existing, subject, outcome);
    }
  }

  /** What a mid-turn write must find for the record to be sound after it. */
  predicate Fits(record: Option<Record>, w: MidTurn) {
    record.Some? ==>
      match w
      case MarkAwaitingReply(_, agentId, runId, _) =>
        && record.value.pendingIdentityLink.None? && record.value.approvalPending.None?
        && record.value.subAgentApprovalPending in {None, Some(SubAgentApproval(agentId, runId))}
      case ClearAwaitingReply => record.value.subAgentApprovalPending.None?
  }

  /** What every reachable record satisfies, sound or not: pauses and skill exclude each other, and so do skill and anchor. */
  predicate Tidy(record: Option<Record>) {
    record.Some? ==>
      var r := record.value;
      && (r.activeAgentId.Some? <==> r.activeAgentRunId.Some?)
      && (r.awaitingReply || r.runReadOnly ==> r.activeAgentRunId.Some?)
      && (r.activeSkillId.Some? ==> r.activeAgentRunId.None?)
      && (r.approvalPending.Some? ==>
            r.pendingIdentityLink.None? && r.subAgentApprovalPending.None? && r.activeSkillId.None?)
      && (r.pendingIdentityLink.Some? ==> r.subAgentApprovalPending.None? && r.activeSkillId.None?)
      && (r.activeSkillId.Some? ==> r.subAgentApprovalPending.None?)
  }

  predicate SamePauses(record: Option<Record>, r: Option<Record>) {
    if record.Some? then
      && r.Some? && r.value.approvalPending == record.value.approvalPending
      && r.value.pendingIdentityLink == record.value.pendingIdentityLink
      && r.value.subAgentApprovalPending == record.value.subAgentApprovalPending
    else
      r.Some? ==>
        r.value.approvalPending.None? && r.value.pendingIdentityLink.None? && r.value.subAgentApprovalPending.None?
  }

  /** A mid-turn write leaves a sound record exactly when it fits, whether or not the record was sound before. */
  lemma WriteKeepsSoundIffItFits(record: Option<Record>, w: MidTurn)
    requires Tidy(record)
    ensures AllSound(AfterWrite(record, w)) <==> Fits(record, w)
    ensures Tidy(AfterWrite(record, w)) && SamePauses(record, AfterWrite(record, w))
  {
    match w
    case MarkAwaitingReply(_, agentId, runId, _) =>
      var r := AfterWrite(record, w).value;
      assert r.activeAgentId == Some(agentId) && r.activeAgentRunId == Some(runId) && r.lastAgentRunId == Some(runId);
      assert r.awaitingReply && r.activeSkillId.None?;
      if r.subAgentApprovalPending.Some? {
        var p := r.subAgentApprovalPending.value;
        assert p == SubAgentApproval(p.agentId, p.runId);
      }
    case ClearAwaitingReply =>
      if record.Some? {
        var r := AfterWrite(record, w).value;
        assert r.activeAgentId.None? && r.activeAgentRunId.None? && !r.awaitingReply && !r.runReadOnly;
      }
  }

  /** Of several mid-turn writes only the last one matters. */
  lemma {:induction false} LastWriteDecides(record: Option<Record>, writes: seq<MidTurn>)
    requires Tidy(record)
    ensures Tidy(AfterWrites(record, writes)) && SamePauses(record, AfterWrites(record, writes))
    ensures writes != [] ==> (AllSound(AfterWrites(record, writes)) <==> Fits(record, Last(writes)))
  {
    if writes == [] {
    } else {
      LastWriteDecides(record, Front(writes));
      WriteKeepsSoundIffItFits(AfterWrites(record, Front(writes)), Last(writes));
    }
  }

  /** The timeout sweep mends a record whose only fault is its sub-agent pause. */
  predicate SweepMends(record: Option<Record>) {
    && record.Some? && record.value.subAgentApprovalPending.Some?
    && (record.value.activeAgentRunId.Some? ==> record.value.lastAgentRunId == record.value.activeAgentRunId)
  }

  lemma ModePatchAndSweepKeepSound(record: Option<Record>, readOnly: bool)
    requires Tidy(record)
    ensures Tidy(WithMode(record, readOnly)) && Tidy(Swept(record))
    ensures AllSound(WithMode(record, readOnly)) <==> AllSound(record)
    ensures AllSound(Swept(record)) <==> AllSound(record) || SweepMends(record)
    ensures SamePauses(record, WithMode(record, readOnly))
  {
  }

  /** The turn's outcome makes `persistSession` write. */
  predicate Persists(record: Option<Record>, e: Event) {
    && e.Turn? && e.fate.Ended? && e.fate.subject.Some?
    && Written(Found(record, e), e.fate.subject.value, OutcomeOf(record, e)).Some?
  }

  /** The exact condition for a sound record, decided by the last event that touched more than the mode. */
  predicate OneModeAtATime(events: seq<Event>) {
    if events == [] || Last(events).Lost? then true
    else
      var record, e := Run(Front(events)), Last(events);
      if e.Sweep? then OneModeAtATime(Front(events)) || SweepMends(record)
      else if Persists(record, e) then PauseNamesLastRun(Found(record, e), OutcomeOf(record, e))
      else if e.fate.NotStarted? || e.fate.writes == [] then OneModeAtATime(Front(events))
      else Fits(record, Last(e.fate.writes))
  }

  lemma FitsAlike(a: Option<Record>, b: Option<Record>, w: MidTurn)
    requires SamePauses(a, b)
    ensures Fits(a, w) <==> Fits(b, w)
  {
  }

  lemma FoundSound(record: Option<Record>, e: Event)
    requires e.Turn? && !e.fate.NotStarted? && Tidy(record)
    ensures Tidy(Found(record, e))
    ensures AllSound(Found(record, e)) <==>
      if e.fate.writes == [] then AllSound(record) else Fits(record, Last(e.fate.writes))
  {
    ModePatchAndSweepKeepSound(record, Mode(record, e.trigger));
    var patched := Opened(record, e.surface, e.trigger);
    assert Tidy(patched) && SamePauses(record, patched) && (AllSound(patched) <==> AllSound(record));
    LastWriteDecides(patched, e.fate.writes);
    if e.fate.writes != [] {
      FitsAlike(record, patched, Last(e.fate.writes));
    }
  }

  lemma WrittenIsTidy(existing: Option<Record>, subject: string, outcome: Outcome)
    ensures Tidy(Written(existing, subject, outcome))
  {
  }

  lemma TurnSound(record: Option<Record>, e: Event)
    requires e.Turn? && !e.fate.NotStarted? && Tidy(record)
    ensures Tidy(After(record, e))
    ensures AllSound(After(record, e)) <==>
      if Persists(record, e) then PauseNamesLastRun(Found(record, e), OutcomeOf(record, e)) else AllSound(Found(record, e))
  {
    FoundSound(record, e);
    if e.fate.Ended? && e.fate.subject.Some? {
      WriteIsSound(Found(record, e), e.fate.subject.value, OutcomeOf(record, e));
      WrittenIsTidy(Found(record, e), e.fate.subject.value, OutcomeOf(record, e));
    }
  }

  /**
   * Over every sequence of turns, crashes, sweeps and losses, with no assumption about the graph: the record holds at
   * most one resume mode, consistent in itself, exactly under this condition on what each event found.
   */
  lemma {:induction false} RecordIsSoundIff(events: seq<Event>)
    ensures Tidy(Run(events))
    ensures AllSound(Run(events)) <==> OneModeAtATime(events)
  {
    if events == [] {
    } else {
      var e, record := Last(events), Run(Front(events));
      RecordIsSoundIff(Front(events));
      match e
      case Lost =>
      case Sweep => ModePatchAndSweepKeepSound(record, false);
      case Turn(_, _, fate) =>
        if !fate.NotStarted? {
          TurnSound(record, e);
          FoundSound(record, e);
        }
    }
  }

  /** A pause concerns the run this turn reports, or the anchored run when the turn reports none. */
  predicate PauseConcernsRun(existing: Option<Record>, outcome: Outcome) {
    Pause(outcome).Some? ==>
      var run := Pause(outcome).value.runId;
      if RunId(outcome).Some? then RunId(outcome).value == run else Anchors(existing, run)
  }

  predicate PausesConcernRuns(events: seq<Event>) {
    events != [] ==>
      var record, e := Run(Front(events)), Last(events);
      PausesConcernRuns(Front(events)) && (e.Turn? && e.fate.Ended? ==> PauseConcernsRun(Found(record, e), OutcomeOf(record, e)))
  }

  predicate AnchorIsLast(record: Option<Record>) {
    record.Some? && record.value.activeAgentRunId.Some? ==> record.value.lastAgentRunId == record.value.activeAgentRunId
  }

  lemma {:induction false} WritesAnchorLast(record: Option<Record>, writes: seq<MidTurn>)
    requires AnchorIsLast(record)
    ensures AnchorIsLast(AfterWrites(record, writes))
  {
    if writes == [] {
    } else {
      WritesAnchorLast(record, Front(writes));
    }
  }

  lemma ConcernedPauseNamesLastRun(existing: Option<Record>, outcome: Outcome)
    requires AnchorIsLast(existing) && PauseConcernsRun(existing, outcome)
    ensures PauseNamesLastRun(existing, outcome)
  {
  }

  lemma PersistAnchorsLast(existing: Option<Record>, subject: Option<string>, outcome: Outcome)
    requires AnchorIsLast(existing) && PauseConcernsRun(existing, outcome)
    ensures AnchorIsLast(Persisted(existing, subject, outcome))
  {
    ConcernedPauseNamesLastRun(existing, outcome);
    if subject.Some? {
      WriteIsSound(existing, subject.value, outcome);
    }
  }

  lemma {:induction false} AnchorStaysLast(events: seq<Event>)
    requires PausesConcernRuns(events)
    ensures AnchorIsLast(Run(events))
  {
    if events == [] {
    } else {
      var e, record := Last(events), Run(Front(events));
      AnchorStaysLast(Front(events));
      if e.Turn? && !e.fate.NotStarted? {
        WritesAnchorLast(Opened(record, e.surface, e.trigger), e.fate.writes);
        if e.fate.Ended? {
          PersistAnchorsLast(Found(record, e), e.fate.subject, OutcomeOf(record, e));
        }
      }
    }
  }

  /**
   * With every pause concerning its run, each turn that writes its outcome leaves a sound record, whatever the turn
   * wrote on the way and whatever record it found.
   */
  lemma RecordStaysSound(events: seq<Event>)
    requires PausesConcernRuns(events)
    requires events != [] && Persists(Run(Front(events)), Last(events))
    ensures AllSound(Run(events))
  {
    var e, record := Last(events), Run(Front(events));
    AnchorStaysLast(Front(events));
    WritesAnchorLast(Opened(record, e.surface, e.trigger), e.fate.writes);
    ConcernedPauseNamesLastRun(Found(record, e), OutcomeOf(record, e));
    RecordIsSoundIff(events);
  }

  /**
   * Every record reachable through `persistSession`, `setSessionReadOnly` and the sweep is sound, with every pause
   * concerning its run: turns that write their outcome, that only patch the mode, that crash, and losses, in any order.
   */
  lemma {:induction false} OutcomesAndPatchesStaySound(events: seq<Event>)
    requires PausesConcernRuns(events) && NoMidTurnWrites(events)
    ensures AllSound(Run(events))
  {
    if events == [] {
    } else {
      var before, e := Front(events), Last(events);
      assert e in events && forall f <- before :: f in events;
      OutcomesAndPatchesStaySound(before);
      RecordIsSoundIff(before);
      RecordIsSoundIff(events);
      if Persists(Run(before), e) {
        RecordStaysSound(events);
      }
    }
  }

  // A failing run: an identity link completes, and the resumed delegation marks its run next to the stored link.

  function LinkPause(subject: string, link: IdentityLink): (e: Event) {
    Turn(Blocking, None,
      Ended([], Some(subject), Quiet().(identityLinkPending := true, pendingIdentityLink := Some(link))))
  }

  /** The resumed turn marks its run and crashes. */
  function Cut(subject: string, agent: string, run: string): (e: Event) {
    Turn(Blocking, None, Crashed([MarkAwaitingReply(subject, agent, run, false)]))
  }

  /** The resumed turn marks its run and ends with its question. */
  function Asked(subject: string, agent: string, run: string): (e: Event) {
    Turn(Blocking, None, Ended([MarkAwaitingReply(subject, agent, run, false)], Some(subject), Question(agent, run)))
  }

  lemma AfterLinkPause(subject: string, link: IdentityLink)
    ensures var events := [LinkPause(subject, link)];
      && Allowed(events) && PausesConcernRuns(events) && Launched(events) == map[]
      && Run(events) == Some(Blank(subject).(pendingIdentityLink := Some(link)))
  {
    var e := LinkPause(subject, link);
    assert Front([e]) == [];
    assert Named(e.fate.state) == {} && Marked(e.fate.writes) == {};
  }

  lemma MarkedNextToLink(record: Option<Record>, e: Event, w: MidTurn)
    requires record.Some? && !record.value.readOnly
    requires e.Turn? && e.surface.Blocking? && e.trigger.None? && !e.fate.NotStarted? && e.fate.writes == [w]
    ensures Found(record, e) == AfterWrite(record, w)
  {
    assert Front([w]) == [] && Last([w]) == w;
    assert AfterWrites(record, [w]) == AfterWrite(AfterWrites(record, []), w);
  }

  /** After a crash there are two ways to resume, the link that is done with and the run. */
  lemma CrashAfterLinkLeavesTwoModes(subject: string, agent: string, run: string, link: IdentityLink)
    ensures var events := [LinkPause(subject, link), Cut(subject, agent, run)];
      && Allowed(events) && PausesConcernRuns(events) && Run(events).Some? && !AllSound(Run(events))
      && Offers(Run(events).value) == {PollLink(link), AwaitReply(agent, run)}
  {
    AfterLinkPause(subject, link);
    var pause, e := LinkPause(subject, link), Cut(subject, agent, run);
    assert Front([pause, e]) == [pause];
    MarkedNextToLink(Run([pause]), e, MarkAwaitingReply(subject, agent, run, false));
  }

  /** The same turn, once it writes its outcome, leaves only the run. */
  lemma QuestionAfterLinkLeavesOneMode(subject: string, agent: string, run: string, link: IdentityLink)
    requires run != ""
    ensures var events := [LinkPause(subject, link), Asked(subject, agent, run)];
      && Allowed(events) && PausesConcernRuns(events) && Run(events).Some? && AllSound(Run(events))
      && Offers(Run(events).value) == {AnswerQuestion(agent, run)}
  {
    AfterLinkPause(subject, link);
    var pause, e := LinkPause(subject, link), Asked(subject, agent, run);
    assert Front([pause, e]) == [pause];
    MarkedNextToLink(Run([pause]), e, MarkAwaitingReply(subject, agent, run, false));
    MostUrgentWishIsGranted(Found(Run([pause]), e), subject, OutcomeOf(Run([pause]), e));
    WriteIsSound(Found(Run([pause]), e), subject, OutcomeOf(Run([pause]), e));
  }

  // Continuation tokens are a fold.

  function TokenOf(record: Option<Record>, agent: bool, id: string): (token: Option<string>) {
    if record.None? then None
    else
      var tokens := if agent then record.value.agentContinuations else record.value.toolContinuations;
      if id in tokens then Some(tokens[id]) else None
  }

  function ExtractedFrom(outcome: Outcome, agent: bool): (extracted: Option<Extracted>) {
    if agent then outcome.extractedAgentContinuation else outcome.extractedContinuation
  }

  function ExtractedBy(e: Event, agent: bool): (extracted: Option<Extracted>) {
    if !e.Turn? || !e.fate.Ended? || e.fate.subject.None? then None
    else ExtractedFrom(e.fate.state, agent)
  }

  /** The last token extracted for `id` by a persisted turn, absent if that was empty. */
  function LastToken(events: seq<Event>, agent: bool, id: string): (token: Option<string>) {
    if events == [] || Last(events).Lost? then None
    else
      var extracted := ExtractedBy(Last(events), agent);
      if extracted.Some? && extracted.value.id == id then
        (if extracted.value.token == "" then None else Some(extracted.value.token))
      else LastToken(Front(events), agent, id)
  }

  lemma {:induction false} WritesKeepTokens(record: Option<Record>, writes: seq<MidTurn>, agent: bool, id: string)
    ensures TokenOf(AfterWrites(record, writes), agent, id) == TokenOf(record, agent, id)
  {
    if writes == [] {
    } else {
      WritesKeepTokens(record, Front(writes), agent, id);
    }
  }

  lemma FoundTokens(record: Option<Record>, e: Event, agent: bool, id: string)
    requires e.Turn? && !e.fate.NotStarted?
    ensures TokenOf(Found(record, e), agent, id) == TokenOf(record, agent, id)
  {
    WritesKeepTokens(Opened(record, e.surface, e.trigger), e.fate.writes, agent, id);
  }

  lemma ForwardedTokens(surface: Surface, state: Outcome, mode: bool)
    ensures Forwarded(surface, state, mode).extractedContinuation == state.extractedContinuation
    ensures Forwarded(surface, state, mode).extractedAgentContinuation == state.extractedAgentContinuation
  {
  }

  function Replaced(stored: Option<string>, extracted: Option<Extracted>, id: string): (token: Option<string>) {
    if extracted.None? || extracted.value.id != id then stored
    else if extracted.value.token == "" then None
    else Some(extracted.value.token)
  }

  lemma MergedToken(existing: Option<Record>, subject: string, outcome: Outcome, agent: bool, id: string)
    ensures TokenOf(Some(Base(existing, subject, outcome)), agent, id) ==
      Replaced(TokenOf(existing, agent, id), ExtractedFrom(outcome, agent), id)
  {
  }

  lemma PersistedTokens(existing: Option<Record>, subject: Option<string>, outcome: Outcome, agent: bool, id: string)
    ensures TokenOf(Persisted(existing, subject, outcome), agent, id) ==
      Replaced(TokenOf(existing, agent, id), if subject.None? then None else ExtractedFrom(outcome, agent), id)
  {
    if subject.Some? {
      var base := Base(existing, subject.value, outcome);
      WrittenSharesBase(existing, subject.value, outcome);
      MergedToken(existing, subject.value, outcome, agent, id);
      assert Written(existing, subject.value, outcome).Some? ==>
        TokenOf(Persisted(existing, subject, outcome), agent, id) == TokenOf(Some(base), agent, id);
    }
  }

  lemma TurnTokens(record: Option<Record>, e: Event, agent: bool, id: string)
    requires e.Turn? && !e.fate.NotStarted?
    ensures TokenOf(After(record, e), agent, id) == Replaced(TokenOf(record, agent, id), ExtractedBy(e, agent), id)
  {
    FoundTokens(record, e, agent, id);
    if e.fate.Ended? {
      var mode := Mode(record, e.trigger);
      ForwardedTokens(e.surface, e.fate.state, mode);
      PersistedTokens(Found(record, e), e.fate.subject, Forwarded(e.surface, e.fate.state, mode), agent, id);
    }
  }

  /** Every stored token is the last one extracted for its tool or agent, whichever branches the turns ended in. */
  lemma {:induction false} TokensAreAFold(events: seq<Event>, agent: bool, id: string)
    ensures TokenOf(Run(events), agent, id) == LastToken(events, agent, id)
  {
    if events == [] {
    } else {
      var e := Last(events);
      TokensAreAFold(Front(events), agent, id);
      if e.Turn? && !e.fate.NotStarted? {
        TurnTokens(Run(Front(events)), e, agent, id);
      }
    }
  }

  // What survives to the next turn, facade by facade.

  lemma PersistedToolApproval(existing: Option<Record>, subject: string, outcome: Outcome)
    ensures var r := Persisted(existing, Some(subject), outcome);
      if outcome.approvalWaiting && outcome.approvalPending.Some? then
        r.Some? && r.value.approvalPending == outcome.approvalPending
      else r == existing || (r.Some? && r.value.approvalPending.None?)
  {
  }

  /** A fresh tool-approval pause reaches the next turn's input exactly when the facade forwards it: not through `/invoke`. */
  lemma ToolApprovalSurvivesUnlessInvoked(record: Option<Record>, e: Event, trigger: Option<bool>)
    requires e.Turn? && e.fate.Ended? && e.fate.subject.Some?
    requires e.fate.state.approvalWaiting && e.fate.state.approvalPending.Some?
    requires var found := Found(record, e); found.Some? ==> found.value.approvalPending.None?
    ensures var input := InputOf(After(record, e), trigger);
      (input.session.Some? && input.session.value.approvalPending == e.fate.state.approvalPending) <==> !e.surface.Invoke?
  {
    var outcome := Forwarded(e.surface, e.fate.state, Mode(record, e.trigger));
    PersistedToolApproval(Found(record, e), e.fate.subject.value, outcome);
  }

  /** A turn that lost its channel to a run leaves the run to be re-attached to, except through the streaming facade. */
  lemma ResumeAnchorSurvivesUnlessStreamed(record: Option<Record>, e: Event, trigger: Option<bool>)
    requires e.Turn? && e.fate.Ended? && e.fate.subject.Some?
    requires var state := e.fate.state;
      && state.agentResumePending && state.selectedAgent.Some? && RunId(state).Some? && !state.agentAwaitingReply
      && !state.approvalWaiting && !state.subAgentApprovalWaiting && !state.identityLinkPending && state.selectedSkill.None?
    ensures var next := InputOf(After(record, e), trigger).session;
      next.Some? && (Anchors(next, RunId(e.fate.state).value) && next.value.awaitingReply <==> !e.surface.Streaming?)
  {
  }
}
