/**
 * Sequences of serial turns on one session. A turn reads the record, patches the session's mode, runs the graph
 * (which may write mid-turn), and persists its outcome, unless it crashes on the way.
 */
module SessionRuns {
  import opened Text
  import opened Sessions

  /** The facades a turn can come through; only `/invoke` carries triggers and patches the mode. */
  datatype Surface = Invoke | Blocking | Streaming

  datatype Fate =
    | NotStarted
    | Crashed(writes: seq<MidTurn>)
    | Ended(writes: seq<MidTurn>, subject: Option<string>, state: Outcome)

  datatype Event =
    | Turn(surface: Surface, trigger: Option<bool>, fate: Fate)
    | Sweep
    | Lost

  /** The part of the graph's final state each facade hands to `persistSession`. */
  function Forwarded(surface: Surface, state: Outcome, mode: bool): (outcome: Outcome) {
    match surface
    case Invoke => state.(approvalPending := None, approvalWaiting := false, readOnly := state.readOnly || mode)
    case Blocking => state.(readOnly := state.readOnly || mode)
    case Streaming => state.(agentResumePending := false, readOnly := mode)
  }

  function Mode(record: Option<Record>, trigger: Option<bool>): (readOnly: bool) {
    InputOf(record, trigger).readOnly
  }

  /** The record once the turn's mode is recorded, before the graph runs. */
  function Opened(record: Option<Record>, surface: Surface, trigger: Option<bool>): (r: Option<Record>) {
    var mode := Mode(record, trigger);
    if surface.Invoke? && (mode || trigger.Some?) then WithMode(record, mode) else record
  }

  function AfterWrites(record: Option<Record>, writes: seq<MidTurn>): (r: Option<Record>) {
    if writes == [] then record else AfterWrite(AfterWrites(record, Front(writes)), Last(writes))
  }

  /** The record the turn's outcome finds. */
  function Found(record: Option<Record>, e: Event): (r: Option<Record>)
    requires e.Turn? && !e.fate.NotStarted?
  {
    AfterWrites(Opened(record, e.surface, e.trigger), e.fate.writes)
  }

  function After(record: Option<Record>, e: Event): (r: Option<Record>) {
    match e
    case Sweep => Swept(record)
    case Lost => None
    case Turn(surface, trigger, fate) =>
      if fate.NotStarted? then record
      else if fate.Crashed? then Found(record, e)
      else Persisted(Found(record, e), fate.subject, Forwarded(surface, fate.state, Mode(record, trigger)))
  }

  function Run(events: seq<Event>): (r: Option<Record>) {
    if events == [] then None else After(Run(Front(events)), Last(events))
  }

  method PerformWrites(server: InvokeServer, sessionId: string, writes: seq<MidTurn>)
    modifies server
    ensures server.Stored(sessionId) == AfterWrites(old(server.Stored(sessionId)), writes)
    ensures server.records - {sessionId} == old(server.records) - {sessionId}
  {
    for i := 0 to |writes|
      invariant server.Stored(sessionId) == AfterWrites(old(server.Stored(sessionId)), writes[..i])
      invariant server.records - {sessionId} == old(server.records) - {sessionId}
    {
      assert Front(writes[..i + 1]) == writes[..i];
      server.WriteMidTurn(sessionId, writes[i]);
    }
    assert writes[..|writes|] == writes;
  }

  /** The same turn performed by the server's own methods, step by step. */
  method PerformTurn(server: InvokeServer, sessionId: string, e: Event)
    requires server.hasStore && sessionId != ""
    requires e.Turn? && !e.fate.NotStarted?
    modifies server
    ensures server.Stored(sessionId) == After(old(server.Stored(sessionId)), e)
    ensures server.records - {sessionId} == old(server.records) - {sessionId}
  {
    var input := server.BuildGraphInput(sessionId, e.trigger);
    if e.surface.Invoke? && (input.readOnly || e.trigger.Some?) {
      server.SetSessionReadOnly(sessionId, input.readOnly);
    }
    assert server.Stored(sessionId) == Opened(old(server.Stored(sessionId)), e.surface, e.trigger);
    PerformWrites(server, sessionId, e.fate.writes);
    if e.fate.Ended? {
      server.PersistSession(sessionId, e.fate.subject, Forwarded(e.surface, e.fate.state, input.readOnly));
    }
  }
}
