/**
 * The wait of one Remote Control turn: poll the session listing, re-read the transcript, narrate what is new,
 * report the URL, and decide when to give up. The clock is read once per synchronous stretch, that is once
 * after each `await`: `polledAt` after the listing, `readAt` after the transcript.
 */
module RemoteControl {
  import opened Text
  import opened Json
  import opened SessionListing
  import Transcript

  datatype Config = Config(
    isAuthNotice: Option<string> -> bool,
    idleTimeoutMs: nat,
    idleStatusGraceMs: nat,
    waitingTimeoutMs: nat,
    startupTimeoutMs: nat,
    urlGraceMs: nat,
    heartbeatMs: nat,
    maxWaitMs: Option<nat>)

  /** One turn of the URL grace loop: the abort signal before the sleep, then the bridge id read after it. */
  datatype GraceRead = GraceRead(aborted: bool, bridge: Option<string>, at: int)

  /**
   * What one iteration of the poll loop gets to see: the session found in the listing, its transcript, and the
   * reads of the URL grace loop should this iteration enter it.
   */
  datatype Glimpse = Glimpse(
    aborted: bool,
    session: Option<Session>,
    polledAt: int,
    transcript: Option<Transcript.State>,
    readAt: int,
    childExited: bool,
    grace: seq<GraceRead>)

  datatype Said = Narrated(event: Transcript.Event) | Url(url: string) | Heartbeat

  datatype Emit = Emit(at: int, said: Said)

  datatype Outcome =
    | Aborted
    | AuthFailure(detail: Option<string>, sessionId: Option<string>)
    | Completed(finalText: Option<string>, sessionId: Option<string>)
    | SessionFailed(sessionId: Option<string>)
    | ChildExited(sessionId: Option<string>)
    | NeverRegistered
    | WaitingTimeout(sessionId: Option<string>)
    | IdleFailure(reportedIdle: bool, startedTurn: bool, silentForMs: int, sessionId: Option<string>)
    | TimedOut

  /** `InGrace` is a finished turn still held open for its URL when the observations end. */
  datatype Verdict = Continue | InGrace | Return(outcome: Outcome, at: int)

  datatype State = State(
    startedAt: int,
    lastEmitAt: int,
    urlReported: bool,
    lastProgressAt: int,
    sessionFoundAt: Option<int>,
    discoveredSessionId: Option<string>,
    entryCount: nat,
    narratedEvents: nat,
    sawTurnActivity: bool,
    lastStatus: Option<Status>,
    waitingSinceAt: Option<int>,
    emitted: seq<Emit>)

  datatype Result = Result(state: State, verdict: Verdict)

  // One iteration of the loop as a function of the state before it.

  function Start(now: int): (s: State) {
    State(now, now, false, now, None, None, 0, 0, false, None, None, [])
  }

  function UrlOf(bridge: string): (url: string) {
    "https://claude.ai/code/" + (if "cse_" <= bridge then "session_" + bridge[4..] else bridge)
  }

  function Say(s: State, at: int, said: Said): (t: State) {
    s.(lastEmitAt := at, emitted := s.emitted + [Emit(at, said)])
  }

  function ReportUrl(s: State, at: int, bridge: Option<string>): (t: State) {
    if bridge.None? || s.urlReported then s
    else Say(s.(urlReported := true), at, Url(UrlOf(bridge.value)))
  }

  function Listed(g: Glimpse): (session: Option<Session>) {
    if g.aborted then None else g.session
  }

  /** The transcript counts only together with a session. */
  function ReadOf(g: Glimpse): (st: Option<Transcript.State>) {
    if Listed(g).None? then None else g.transcript
  }

  function AfterPoll(s: State, session: Session, at: int): (t: State) {
    s.(
      discoveredSessionId := Some(session.sessionId),
      lastStatus := session.status,
      waitingSinceAt := if session.status != Some(Waiting) then None
                        else if s.waitingSinceAt.Some? then s.waitingSinceAt else Some(at),
      sessionFoundAt := if s.sessionFoundAt.None? then Some(at) else s.sessionFoundAt,
      lastProgressAt := if session.status == Some(Busy) || s.sessionFoundAt.None? then at else s.lastProgressAt)
  }

  function Narrate(s: State, at: int, events: seq<Transcript.Event>): (t: State) {
    if events == [] then s
    else Say(Narrate(s, at, Front(events)), at, Narrated(Last(events))).(sawTurnActivity := true)
  }

  /** `events.slice(from)`. */
  function From<T>(events: seq<T>, from: nat): (rest: seq<T>) {
    if from <= |events| then events[from..] else []
  }

  function AfterRead(s: State, st: Transcript.State, at: int): (t: State) {
    var counted := if st.entryCount > s.entryCount then s.(entryCount := st.entryCount, lastProgressAt := at) else s;
    var told := Narrate(counted, at, From(st.events, s.narratedEvents)).(narratedEvents := |st.events|);
    ReportUrl(told, at, st.bridgeSessionId)
  }

  /** `until` is None while the observations end inside the grace loop. */
  datatype Held = Held(state: State, until: Option<int>)

  /** The URL grace loop from time `now`. */
  function Hold(s: State, grace: seq<GraceRead>, now: int, deadline: int): (held: Held)
    decreases |grace|
  {
    if s.urlReported || now >= deadline then Held(s, Some(now))
    else if grace == [] then Held(s, None)
    else if grace[0].aborted then Held(s, Some(now))
    else Hold(ReportUrl(s, grace[0].at, grace[0].bridge), grace[1..], grace[0].at, deadline)
  }

  /** The silence a status tolerates; None for no bound at all. */
  function Bound(cfg: Config, status: Option<Status>): (bound: Option<nat>) {
    match status
    case Some(Busy) => None
    case Some(Waiting) => None
    case Some(Idle) => Some(cfg.idleStatusGraceMs)
    case None => Some(cfg.idleTimeoutMs)
  }

  /** When an iteration takes its decision. */
  function Now(g: Glimpse): (now: int) {
    if Listed(g).Some? then g.readAt else g.polledAt
  }

  function Decide(cfg: Config, s: State, now: int): (v: Verdict) {
    if s.sessionFoundAt.None? && now - s.startedAt >= cfg.startupTimeoutMs then Return(NeverRegistered, now)
    else if s.sessionFoundAt.Some? && s.waitingSinceAt.Some? && now - s.waitingSinceAt.value >= cfg.waitingTimeoutMs then
      Return(WaitingTimeout(s.discoveredSessionId), now)
    else
      var bound := Bound(cfg, s.lastStatus);
      if s.sessionFoundAt.Some? && bound.Some? && now - s.lastProgressAt >= bound.value then
        Return(IdleFailure(s.lastStatus == Some(Idle), s.sawTurnActivity, now - s.lastProgressAt, s.discoveredSessionId), now)
      else if cfg.maxWaitMs.Some? && now >= s.startedAt + cfg.maxWaitMs.value then Return(TimedOut, now)
      else Continue
  }

  function Beat(cfg: Config, s: State, now: int): (t: State) {
    if now - s.lastEmitAt >= cfg.heartbeatMs then Say(s, now, Heartbeat) else s
  }

  /** The state once the iteration's listing and transcript are taken in. */
  function TakeIn(s: State, g: Glimpse): (t: State) {
    if Listed(g).None? then s
    else
      var polled := AfterPoll(s, g.session.value, g.polledAt);
      if g.transcript.None? then polled else AfterRead(polled, g.transcript.value, g.readAt)
  }

  predicate TurnComplete(g: Glimpse) {
    ReadOf(g).Some? && ReadOf(g).value.turnComplete
  }

  function Finish(
    cfg: Config, s: State, text: Option<string>, sessionId: Option<string>, grace: seq<GraceRead>, now: int): (r: Result)
  {
    if cfg.isAuthNotice(text) then Result(s, Return(AuthFailure(text, sessionId), now))
    else
      var held := Hold(s, grace, now, now + cfg.urlGraceMs);
      Result(held.state, if held.until.None? then InGrace else Return(Completed(text, sessionId), held.until.value))
  }

  function IdOf(session: Option<Session>): (id: Option<string>) {
    if session.None? then None else Some(session.value.sessionId)
  }

  /** The checks that end an unfinished turn, and the heartbeat if none does. */
  function Judge(cfg: Config, s: State, g: Glimpse): (r: Result) {
    var session, now := Listed(g), Now(g);
    if session.Some? && session.value.failed then Result(s, Return(SessionFailed(IdOf(session)), now))
    else if g.childExited then Result(s, Return(ChildExited(IdOf(session)), now))
    else if Decide(cfg, s, now).Return? then Result(s, Decide(cfg, s, now))
    else Result(Beat(cfg, s, now), Continue)
  }

  /** The rest of an iteration, once its glimpse is taken in. */
  function Settle(cfg: Config, s: State, g: Glimpse): (r: Result) {
    if g.aborted then Result(s, Return(Aborted, g.polledAt))
    else if TurnComplete(g) then Finish(cfg, s, g.transcript.value.finalText, IdOf(g.session), g.grace, g.readAt)
    else Judge(cfg, s, g)
  }

  function Step(cfg: Config, s: State, g: Glimpse): (r: Result) {
    Settle(cfg, TakeIn(s, g), g)
  }

  /** The whole wait over a finite history; it stops at the first verdict that is not to go on. */
  function After(cfg: Config, start: int, h: seq<Glimpse>): (r: Result) {
    if h == [] then Result(Start(start), Continue)
    else
      var r := After(cfg, start, Front(h));
      if r.verdict.Continue? then Step(cfg, r.state, Last(h)) else r
  }

  /** The wait was still going on when the last glimpse of the history came. */
  predicate Live(cfg: Config, start: int, h: seq<Glimpse>) {
    h != [] && After(cfg, start, Front(h)).verdict.Continue?
  }

  // The raw environment behind the glimpses.

  datatype Source = Source(parse: string -> Option<Json>, cwd: string, priorSessionIds: set<string>)

  datatype RawGraceRead = RawGraceRead(aborted: bool, raw: Option<string>, at: int)

  /** `payload` is None when the poll failed, `raw` and the grace reads when the transcript could not be read. */
  datatype Observation = Observation(
    aborted: bool,
    payload: Option<string>,
    polledAt: int,
    raw: Option<string>,
    readAt: int,
    childExited: bool,
    grace: seq<RawGraceRead>)

  function Seen(src: Source, o: Observation): (session: Option<Session>) {
    if o.payload.None? then None else FindInteractiveSession(src.parse, o.payload.value, src.cwd, src.priorSessionIds)
  }

  /** An empty file is no transcript. */
  function Parsed(src: Source, raw: Option<string>): (st: Option<Transcript.State>) {
    if raw.None? || raw.value == "" then None else Some(Transcript.Summary(Transcript.Entries(src.parse, raw.value)))
  }

  function GraceBridge(src: Source, raw: Option<string>): (bridge: Option<string>) {
    var st := Parsed(src, raw);
    if st.None? then None else st.value.bridgeSessionId
  }

  function GraceOf(src: Source, grace: seq<RawGraceRead>): (gs: seq<GraceRead>) {
    if grace == [] then []
    else [GraceRead(grace[0].aborted, GraceBridge(src, grace[0].raw), grace[0].at)] + GraceOf(src, grace[1..])
  }

  function GlimpseOf(src: Source, o: Observation): (g: Glimpse) {
    Glimpse(o.aborted, Seen(src, o), o.polledAt, Parsed(src, o.raw), o.readAt, o.childExited, GraceOf(src, o.grace))
  }

  function GlimpsesOf(src: Source, obs: seq<Observation>): (h: seq<Glimpse>)
    ensures |h| == |obs| && forall i :: 0 <= i < |obs| ==> h[i] == GlimpseOf(src, obs[i])
  {
    if obs == [] then [] else GlimpsesOf(src, Front(obs)) + [GlimpseOf(src, Last(obs))]
  }

  /** The running wait: the loop's variables, updated in place. */
  class Wait {
    const src: Source
    const cfg: Config
    const startedAt: int
    var lastEmitAt: int
    var urlReported: bool
    var lastProgressAt: int
    var sessionFoundAt: Option<int>
    var discoveredSessionId: Option<string>
    var entryCount: nat
    var narratedEvents: nat
    var sawTurnActivity: bool
    var lastStatus: Option<Status>
    var waitingSinceAt: Option<int>
    var emitted: seq<Emit>

    ghost function View(): (s: State)
      reads this
    {
      State(startedAt, lastEmitAt, urlReported, lastProgressAt, sessionFoundAt, discoveredSessionId, entryCount,
            narratedEvents, sawTurnActivity, lastStatus, waitingSinceAt, emitted)
    }

    constructor (src: Source, cfg: Config, now: int)
      ensures View() == Start(now) && this.src == src && this.cfg == cfg
    {
      this.src, this.cfg := src, cfg;
      startedAt, lastEmitAt, lastProgressAt := now, now, now;
      urlReported, sawTurnActivity := false, false;
      sessionFoundAt, discoveredSessionId, lastStatus, waitingSinceAt := None, None, None, None;
      entryCount, narratedEvents := 0, 0;
      emitted := [];
    }

    method Tell(at: int, said: Said)
      modifies this`lastEmitAt, this`emitted
      ensures View() == Say(old(View()), at, said)
    {
      lastEmitAt := at;
      emitted := emitted + [Emit(at, said)];
    }

    method Report(at: int, bridge: Option<string>)
      modifies this`lastEmitAt, this`emitted, this`urlReported
      ensures View() == ReportUrl(old(View()), at, bridge)
    {
      if bridge.Some? && !urlReported {
        urlReported := true;
        Tell(at, Url(UrlOf(bridge.value)));
      }
    }

    method OnSession(session: Session, now: int)
      modifies this
      ensures View() == AfterPoll(old(View()), session, now)
    {
      discoveredSessionId := Some(session.sessionId);
      lastStatus := session.status;
      if session.status == Some(Busy) {
        lastProgressAt := now;
      }
      if session.status != Some(Waiting) {
        waitingSinceAt := None;
      } else if waitingSinceAt.None? {
        waitingSinceAt := Some(now);
      }
      if sessionFoundAt.None? {
        sessionFoundAt := Some(now);
        lastProgressAt := now;
      }
    }

    method TellAll(events: seq<Transcript.Event>, now: int)
      modifies this`lastEmitAt, this`emitted, this`sawTurnActivity
      ensures View() == Narrate(old(View()), now, events)
    {
      for i := 0 to |events|
        invariant View() == Narrate(old(View()), now, events[..i])
      {
        assert Front(events[..i + 1]) == events[..i];
        sawTurnActivity := true;
        Tell(now, Narrated(events[i]));
      }
      assert events[..|events|] == events;
    }

    method OnTranscript(st: Transcript.State, now: int)
      modifies this
      ensures View() == AfterRead(old(View()), st, now)
    {
      if st.entryCount > entryCount {
        entryCount := st.entryCount;
        lastProgressAt := now;
      }
      TellAll(From(st.events, narratedEvents), now);
      narratedEvents := |st.events|;
      Report(now, st.bridgeSessionId);
    }

    method ReadBridge(raw: Option<string>) returns (bridge: Option<string>)
      ensures bridge == GraceBridge(src, raw)
    {
      bridge := None;
      if raw.Some? && raw.value != "" {
        var st := Transcript.ParseTranscript(src.parse, raw.value);
        bridge := st.bridgeSessionId;
      }
    }

    method HoldForUrl(grace: seq<RawGraceRead>, now: int) returns (until: Option<int>)
      modifies this
      ensures Held(View(), until) == Hold(old(View()), GraceOf(src, grace), now, now + cfg.urlGraceMs)
    {
      var deadline, clock, i := now + cfg.urlGraceMs, now, 0;
      while !urlReported && clock < deadline && i < |grace| && !grace[i].aborted
        invariant 0 <= i <= |grace|
        invariant Hold(View(), GraceOf(src, grace[i..]), clock, deadline) == Hold(old(View()), GraceOf(src, grace), now, deadline)
        decreases |grace| - i
      {
        var bridge := ReadBridge(grace[i].raw);
        assert grace[i..][1..] == grace[i + 1..];
        Report(grace[i].at, bridge);
        clock := grace[i].at;
        i := i + 1;
      }
      until := if urlReported || clock >= deadline || i < |grace| then Some(clock) else None;
    }

    /** The listing and, with a session, its transcript. */
    method Look(o: Observation) returns (session: Option<Session>, st: Option<Transcript.State>)
      requires !o.aborted
      modifies this
      ensures View() == TakeIn(old(View()), GlimpseOf(src, o))
      ensures session == Seen(src, o) && st == ReadOf(GlimpseOf(src, o))
    {
      session, st := None, None;
      if o.payload.Some? {
        session := FindInteractiveSession(src.parse, o.payload.value, src.cwd, src.priorSessionIds);
      }
      if session.Some? {
        OnSession(session.value, o.polledAt);
        if o.raw.Some? && o.raw.value != "" {
          var parsed := Transcript.ParseTranscript(src.parse, o.raw.value);
          st := Some(parsed);
          OnTranscript(parsed, o.readAt);
        }
      }
    }

    method Complete(text: Option<string>, sessionId: Option<string>, grace: seq<RawGraceRead>, now: int) returns (v: Verdict)
      modifies this
      ensures Result(View(), v) == Finish(cfg, old(View()), text, sessionId, GraceOf(src, grace), now)
    {
      if cfg.isAuthNotice(text) {
        return Return(AuthFailure(text, sessionId), now);
      }
      var until := HoldForUrl(grace, now);
      v := if until.None? then InGrace else Return(Completed(text, sessionId), until.value);
    }

    method GiveUp(now: int) returns (v: Verdict)
      ensures v == Decide(cfg, View(), now)
    {
      if sessionFoundAt.None? && now - startedAt >= cfg.startupTimeoutMs {
        return Return(NeverRegistered, now);
      }
      var silentForMs := now - lastProgressAt;
      if sessionFoundAt.Some? {
        if waitingSinceAt.Some? && now - waitingSinceAt.value >= cfg.waitingTimeoutMs {
          return Return(WaitingTimeout(discoveredSessionId), now);
        }
        var bound := Bound(cfg, lastStatus);
        if bound.Some? && silentForMs >= bound.value {
          return Return(IdleFailure(lastStatus == Some(Idle), sawTurnActivity, silentForMs, discoveredSessionId), now);
        }
      }
      if cfg.maxWaitMs.Some? && now >= startedAt + cfg.maxWaitMs.value {
        return Return(TimedOut, now);
      }
      v := Continue;
    }

    method Assess(session: Option<Session>, now: int, childExited: bool) returns (v: Verdict)
      modifies this
      ensures forall g :: Listed(g) == session && Now(g) == now && g.childExited == childExited ==>
        Result(View(), v) == Judge(cfg, old(View()), g)
    {
      if session.Some? && session.value.failed {
        return Return(SessionFailed(IdOf(session)), now);
      }
      if childExited {
        return Return(ChildExited(IdOf(session)), now);
      }
      v := GiveUp(now);
      if v.Continue? && now - lastEmitAt >= cfg.heartbeatMs {
        Tell(now, Heartbeat);
      }
    }

    /** One iteration of the poll loop. */
    method Iterate(o: Observation) returns (v: Verdict)
      modifies this
      ensures Result(View(), v) == Step(cfg, old(View()), GlimpseOf(src, o))
    {
      if o.aborted {
        return Return(Aborted, o.polledAt);
      }
      var session, st := Look(o);
      if st.Some? && st.value.turnComplete {
        v := Complete(st.value.finalText, IdOf(session), o.grace, o.readAt);
      } else {
        v := Assess(session, if session.Some? then o.readAt else o.polledAt, o.childExited);
      }
    }
  }

  lemma {:induction false} AfterIsSettled(cfg: Config, start: int, h: seq<Glimpse>, i: nat)
    requires i <= |h| && (i == |h| || !After(cfg, start, h[..i]).verdict.Continue?)
    ensures After(cfg, start, h) == After(cfg, start, h[..i])
  {
    if i == |h| {
      assert h[..i] == h;
    } else {
      assert Front(h)[..i] == h[..i];
      AfterIsSettled(cfg, start, Front(h), i);
    }
  }

  /** The poll loop over the observations of one turn. */
  method RunTurn(src: Source, cfg: Config, start: int, obs: seq<Observation>) returns (emitted: seq<Emit>, verdict: Verdict)
    ensures var r := After(cfg, start, GlimpsesOf(src, obs)); emitted == r.state.emitted && verdict == r.verdict
  {
    var wait := new Wait(src, cfg, start);
    ghost var h := GlimpsesOf(src, obs);
    verdict := Continue;
    var i := 0;
    while i < |obs| && verdict.Continue?
      invariant fresh(wait) && wait.src == src && wait.cfg == cfg && 0 <= i <= |obs|
      invariant After(cfg, start, h[..i]) == Result(wait.View(), verdict)
    {
      assert Front(h[..i + 1]) == h[..i];
      verdict := wait.Iterate(obs[i]);
      i := i + 1;
    }
    AfterIsSettled(cfg, start, h, i);
    emitted := wait.emitted;
  }
}
