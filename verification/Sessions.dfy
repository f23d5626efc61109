/**
 * The conversation-session record of the orchestrator: what a turn reads from it, what it patches before and
 * during the turn, and how the turn's outcome replaces it afterwards.
 */
module Sessions {
  import opened Text

  datatype IdentityLink = IdentityLink(agentId: string, provider: string)

  datatype ToolApproval = ToolApproval(toolId: string)

  datatype SubAgentApproval = SubAgentApproval(agentId: string, runId: string)

  datatype Record = Record(
    subject: string,
    activeSkillId: Option<string>,
    activeAgentId: Option<string>,
    activeAgentRunId: Option<string>,
    awaitingReply: bool,
    runReadOnly: bool,
    lastAgentRunId: Option<string>,
    toolContinuations: map<string, string>,
    agentContinuations: map<string, string>,
    pendingIdentityLink: Option<IdentityLink>,
    approvalPending: Option<ToolApproval>,
    subAgentApprovalPending: Option<SubAgentApproval>,
    readOnly: bool)

  datatype Extracted = Extracted(id: string, token: string)

  /** What the graph reports at the end of a turn. */
  datatype Outcome = Outcome(
    selectedSkill: Option<string>,
    selectedAgent: Option<string>,
    agentRunId: Option<string>,
    agentAwaitingReply: bool,
    agentResumePending: bool,
    extractedContinuation: Option<Extracted>,
    extractedAgentContinuation: Option<Extracted>,
    pendingIdentityLink: Option<IdentityLink>,
    identityLinkPending: bool,
    approvalPending: Option<ToolApproval>,
    approvalWaiting: bool,
    subAgentApprovalPending: Option<SubAgentApproval>,
    subAgentApprovalWaiting: bool,
    readOnly: bool)

  /** The session-dependent part of the graph's input. */
  datatype GraphInput = GraphInput(readOnly: bool, session: Option<Record>)

  // Specifications: each write as a function of the record it finds.

  function Blank(subject: string): (r: Record) {
    Record(subject, None, None, None, false, false, None, map[], map[], None, None, None, false)
  }

  function Merge(tokens: map<string, string>, extracted: Option<Extracted>): (merged: map<string, string>) {
    match extracted
    case None => tokens
    case Some(Extracted(id, token)) => if token != "" then tokens[id := token] else tokens - {id}
  }

  /** A run id counts only when it is not empty. */
  function RunId(outcome: Outcome): (id: Option<string>) {
    if outcome.agentRunId == Some("") then None else outcome.agentRunId
  }

  /** What every branch of `persistSession` writes: the subject, the tokens, the last run and the sticky mode. */
  function Base(existing: Option<Record>, subject: string, outcome: Outcome): (base: Record) {
    var was := if existing.Some? then existing.value else Blank("");
    Blank(subject).(
      toolContinuations := Merge(was.toolContinuations, outcome.extractedContinuation),
      agentContinuations := Merge(was.agentContinuations, outcome.extractedAgentContinuation),
      lastAgentRunId := if RunId(outcome).Some? then RunId(outcome) else was.lastAgentRunId,
      readOnly := was.readOnly || outcome.readOnly)
  }

  /** The mode to label an anchored run with: a run already anchored keeps its label, another one takes the turn's mode. */
  function RunReadOnly(existing: Option<Record>, outcome: Outcome, runId: string): (readOnly: bool) {
    if existing.Some? && existing.value.activeAgentRunId == Some(runId) then existing.value.runReadOnly else outcome.readOnly
  }

  function Anchored(
    base: Record, existing: Option<Record>, outcome: Outcome, agentId: string, runId: string, awaiting: bool): (r: Record)
  {
    base.(
      activeAgentId := Some(agentId),
      activeAgentRunId := Some(runId),
      awaitingReply := awaiting,
      runReadOnly := RunReadOnly(existing, outcome, runId))
  }

  /** The priority cascade of `persistSession`; None when it writes nothing. */
  function Written(existing: Option<Record>, subject: string, outcome: Outcome): (r: Option<Record>) {
    var base := Base(existing, subject, outcome);
    if outcome.approvalWaiting && outcome.approvalPending.Some? then
      Some(base.(approvalPending := outcome.approvalPending))
    else if outcome.subAgentApprovalWaiting && outcome.subAgentApprovalPending.Some? then
      var pending := outcome.subAgentApprovalPending.value;
      Some(Anchored(base, existing, outcome, pending.agentId, pending.runId, true).(subAgentApprovalPending := Some(pending)))
    else if outcome.identityLinkPending then Some(base.(pendingIdentityLink := outcome.pendingIdentityLink))
    else if outcome.selectedSkill.Some? then Some(base.(activeSkillId := outcome.selectedSkill))
    else if RunId(outcome).Some? then
      var runId := RunId(outcome).value;
      if outcome.agentResumePending && outcome.selectedAgent.Some? then
        Some(Anchored(base, existing, outcome, outcome.selectedAgent.value, runId, true))
      else if outcome.agentAwaitingReply && outcome.selectedAgent.Some? then
        Some(Anchored(base, existing, outcome, outcome.selectedAgent.value, runId, false))
      else Some(base)
    else if outcome.extractedContinuation.Some? || outcome.extractedAgentContinuation.Some?
            || (outcome.readOnly && !(existing.Some? && existing.value.readOnly)) then Some(base)
    else None
  }

  /** The stored record after `persistSession`; `subject` is None when the turn resolved no identity. */
  function Persisted(existing: Option<Record>, subject: Option<string>, outcome: Outcome): (r: Option<Record>) {
    if subject.None? || Written(existing, subject.value, outcome).None? then existing
    else Written(existing, subject.value, outcome)
  }

  function IsReadOnly(record: Option<Record>): (readOnly: bool) {
    record.Some? && record.value.readOnly
  }

  /** The stored record after `setSessionReadOnly`. */
  function WithMode(existing: Option<Record>, readOnly: bool): (r: Option<Record>) {
    if IsReadOnly(existing) == readOnly then existing
    else Some((if existing.Some? then existing.value else Blank("")).(readOnly := readOnly))
  }

  /** The turn's input: a trigger brings its own mode, any other turn inherits the session's. */
  function InputOf(record: Option<Record>, trigger: Option<bool>): (input: GraphInput) {
    GraphInput(if trigger.Some? then trigger.value else IsReadOnly(record), record)
  }

  // Writes made while a turn is running (session/inflight-agent-run.ts).

  datatype MidTurn =
    | MarkAwaitingReply(subject: string, agentId: string, runId: string, readOnly: bool)
    | ClearAwaitingReply

  function AfterWrite(existing: Option<Record>, w: MidTurn): (r: Option<Record>) {
    match w
    case MarkAwaitingReply(subject, agentId, runId, readOnly) =>
      var was := if existing.Some? then existing.value else Blank(subject);
      Some(was.(
        activeAgentId := Some(agentId),
        activeAgentRunId := Some(runId),
        awaitingReply := true,
        runReadOnly := readOnly,
        lastAgentRunId := Some(runId),
        activeSkillId := None))
    case ClearAwaitingReply =>
      if existing.None? then None
      else
        Some(existing.value.(activeAgentId := None, activeAgentRunId := None, awaitingReply := false, runReadOnly := false))
  }

  /** The timeout sweep drops a sub-agent pause and keeps its anchor. */
  function Swept(existing: Option<Record>): (r: Option<Record>) {
    if existing.None? then None else Some(existing.value.(subAgentApprovalPending := None))
  }

  /** The server's session state: the store it was configured with, or none. */
  class InvokeServer {
    const hasStore: bool
    var records: map<string, Record>

    constructor (hasStore: bool)
      ensures this.hasStore == hasStore && records == map[]
    {
      this.hasStore := hasStore;
      records := map[];
    }

    function Stored(sessionId: string): (r: Option<Record>)
      reads this
    {
      if sessionId in records then Some(records[sessionId]) else None
    }

    /** A turn without a session id, or a server without a store, has no session. */
    function Session(sessionId: string): (r: Option<Record>)
      reads this
    {
      if sessionId == "" || !hasStore then None else Stored(sessionId)
    }

    method BuildGraphInput(sessionId: string, trigger: Option<bool>) returns (input: GraphInput)
      ensures input == InputOf(Session(sessionId), trigger)
      ensures sessionId == "" || !hasStore ==> input == GraphInput(trigger == Some(true), None)
    {
      input := GraphInput(false, None);
      if trigger == Some(true) {
        input := input.(readOnly := true);
      }
      if sessionId == "" || !hasStore || sessionId !in records {
        return;
      }
      var record := records[sessionId];
      if record.readOnly && trigger.None? {
        input := input.(readOnly := true);
      }
      input := input.(session := Some(record));
    }

    method SetSessionReadOnly(sessionId: string, readOnly: bool)
      modifies this
      ensures Stored(sessionId) ==
        if hasStore then WithMode(old(Stored(sessionId)), readOnly) else old(Stored(sessionId))
      ensures records - {sessionId} == old(records) - {sessionId}
    {
      if !hasStore {
        return;
      }
      var existing := Stored(sessionId);
      if IsReadOnly(existing) == readOnly {
        return;
      }
      var rest := if existing.Some? then existing.value else Blank("");
      records := records[sessionId := rest.(readOnly := readOnly)];
    }

    /** The branch of `persistSession` for a turn that ends with a run. */
    method PersistRun(sessionId: string, base: Record, existing: Option<Record>, outcome: Outcome, runId: string)
      modifies this
      ensures records == old(records)[sessionId :=
        if outcome.agentResumePending && outcome.selectedAgent.Some? then
          Anchored(base, existing, outcome, outcome.selectedAgent.value, runId, true)
        else if outcome.agentAwaitingReply && outcome.selectedAgent.Some? then
          Anchored(base, existing, outcome, outcome.selectedAgent.value, runId, false)
        else base]
    {
      if outcome.agentResumePending && outcome.selectedAgent.Some? {
        records := records[sessionId := Anchored(base, existing, outcome, outcome.selectedAgent.value, runId, true)];
      } else if outcome.agentAwaitingReply && outcome.selectedAgent.Some? {
        records := records[sessionId := Anchored(base, existing, outcome, outcome.selectedAgent.value, runId, false)];
      } else {
        records := records[sessionId := base];
      }
    }

    method PersistSession(sessionId: string, subject: Option<string>, outcome: Outcome)
      modifies this
      ensures Stored(sessionId) ==
        if hasStore && sessionId != "" then Persisted(old(Stored(sessionId)), subject, outcome) else old(Stored(sessionId))
      ensures records - {sessionId} == old(records) - {sessionId}
    {
      if sessionId == "" || !hasStore || subject.None? {
        return;
      }
      var existing := Stored(sessionId);
      var base := Base(existing, subject.value, outcome);
      if outcome.approvalWaiting && outcome.approvalPending.Some? {
        records := records[sessionId := base.(approvalPending := outcome.approvalPending)];
        return;
      }
      if outcome.subAgentApprovalWaiting && outcome.subAgentApprovalPending.Some? {
        var pending := outcome.subAgentApprovalPending.value;
        var anchored := Anchored(base, existing, outcome, pending.agentId, pending.runId, true);
        records := records[sessionId := anchored.(subAgentApprovalPending := Some(pending))];
        return;
      }
      if outcome.identityLinkPending {
        records := records[sessionId := base.(pendingIdentityLink := outcome.pendingIdentityLink)];
        return;
      }
      if outcome.selectedSkill.Some? {
        records := records[sessionId := base.(activeSkillId := outcome.selectedSkill)];
        return;
      }
      var runId := RunId(outcome);
      if runId.Some? {
        PersistRun(sessionId, base, existing, outcome, runId.value);
        return;
      }
      if outcome.extractedContinuation.Some? || outcome.extractedAgentContinuation.Some?
         || (outcome.readOnly && !IsReadOnly(existing)) {
        records := records[sessionId := base];
      }
    }

    method WriteMidTurn(sessionId: string, w: MidTurn)
      modifies this
      ensures Stored(sessionId) == AfterWrite(old(Stored(sessionId)), w)
      ensures records - {sessionId} == old(records) - {sessionId}
    {
      var existing := Stored(sessionId);
      match w {
        case MarkAwaitingReply(subject, agentId, runId, readOnly) =>
          var kept := if existing.Some? then existing.value else Blank(subject);
          records := records[sessionId := kept.(
            activeAgentId := Some(agentId), activeAgentRunId := Some(runId), awaitingReply := true,
            runReadOnly := readOnly, lastAgentRunId := Some(runId), activeSkillId := None)];
        case ClearAwaitingReply =>
          if existing.Some? {
            records := records[sessionId := existing.value.(
              activeAgentId := None, activeAgentRunId := None, awaitingReply := false, runReadOnly := false)];
          }
      }
    }
  }
}
