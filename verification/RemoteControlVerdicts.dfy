/** Why the Remote Control wait ends: every verdict read off the history of observations, in both directions. */
module RemoteControlVerdicts {
  import opened Text
  import opened SessionListing
  import opened RemoteControl
  import opened RemoteControlClocks
  import opened RemoteControlOutput
  import Transcript

  /** Neither aborted nor finished. */
  predicate Unfinished(g: Glimpse) {
    !g.aborted && (ReadOf(g).None? || !ReadOf(g).value.turnComplete)
  }

  predicate SaysFailed(g: Glimpse) {
    Listed(g).Some? && Listed(g).value.failed
  }

  /** Left to the clocks: unfinished, not listed as failed, its process up. */
  predicate Running(g: Glimpse) {
    Unfinished(g) && !SaysFailed(g) && !g.childExited
  }

  predicate NeverCame(cfg: Config, start: int, h: History)
    requires h != []
  {
    !Registered(h) && Now(Last(h)) - start >= cfg.startupTimeoutMs
  }

  predicate Blocked(cfg: Config, h: History)
    requires h != []
  {
    Registered(h) && WaitingSince(h).Some? && Now(Last(h)) - WaitingSince(h).value >= cfg.waitingTimeoutMs
  }

  /** Silent for the grace of a session reported idle, or for the fallback of one without a status. */
  predicate Silent(cfg: Config, start: int, h: History)
    requires h != []
  {
    var silentForMs := Now(Last(h)) - LastProgress(start, h);
    && Registered(h)
    && ((LastReported(h) == Some(Idle) && silentForMs >= cfg.idleStatusGraceMs)
        || (LastReported(h) == None && silentForMs >= cfg.idleTimeoutMs))
  }

  predicate Capped(cfg: Config, start: int, h: History)
    requires h != []
  {
    cfg.maxWaitMs.Some? && Now(Last(h)) >= start + cfg.maxWaitMs.value
  }

  /** The last iteration of a run settles a state that says what the history says. */
  lemma LastSettled(cfg: Config, start: int, h: History) returns (t: State)
    requires Live(cfg, start, h)
    ensures IsHistory(start, h, t) && After(cfg, start, h).verdict == Settle(cfg, t, Last(h)).verdict
  {
    StateIsHistory(cfg, start, h);
    t := TakeIn(After(cfg, start, Front(h)).state, Last(h));
  }

  /** The wait ends as aborted, as a failed session or with its process gone exactly for that reason, with the listed session's id. */
  lemma EndsForItsReason(cfg: Config, start: int, h: History)
    requires Live(cfg, start, h)
    ensures var v, g := After(cfg, start, h).verdict, Last(h);
      var id := if Listed(g).Some? then Some(Listed(g).value.sessionId) else None;
      && (v.Return? && v.outcome.Aborted? <==> g.aborted)
      && (v.Return? && v.outcome.SessionFailed? <==> Unfinished(g) && SaysFailed(g))
      && (v.Return? && v.outcome.ChildExited? <==> Unfinished(g) && !SaysFailed(g) && g.childExited)
      && (v.Return? && (v.outcome.SessionFailed? || v.outcome.ChildExited?) ==>
            v.outcome.sessionId == id && v.at == if Listed(g).Some? then g.readAt else g.polledAt)
  {
    var t := LastSettled(cfg, start, h);
  }

  /** A finished turn ends the wait as completed or as an auth failure, or is held for its URL, and nothing else does. */
  lemma CompletesIffFinished(cfg: Config, start: int, h: History)
    requires Live(cfg, start, h)
    ensures var v, g := After(cfg, start, h).verdict, Last(h);
      (v.InGrace? || (v.Return? && (v.outcome.Completed? || v.outcome.AuthFailure?))) <==> !g.aborted && !Unfinished(g)
  {
    var t := LastSettled(cfg, start, h);
  }

  lemma NeverCameOrBlocked(cfg: Config, start: int, h: History)
    requires Live(cfg, start, h)
    ensures var v, g := After(cfg, start, h).verdict, Last(h);
      && (v.Return? && v.outcome.NeverRegistered? <==> Running(g) && NeverCame(cfg, start, h))
      && (v.Return? && v.outcome.WaitingTimeout? <==> Running(g) && Blocked(cfg, h))
  {
    var t := LastSettled(cfg, start, h);
  }

  lemma SilentOrCapped(cfg: Config, start: int, h: History)
    requires Live(cfg, start, h)
    ensures var v, g := After(cfg, start, h).verdict, Last(h);
      && (v.Return? && v.outcome.IdleFailure? <==> Running(g) && !Blocked(cfg, h) && Silent(cfg, start, h))
      && (v.Return? && v.outcome.TimedOut? <==>
            Running(g) && !NeverCame(cfg, start, h) && !Blocked(cfg, h) && !Silent(cfg, start, h) && Capped(cfg, start, h))
  {
    var t := LastSettled(cfg, start, h);
  }

  /** Each give-up comes exactly when its own clock has run out and no check before it has fired. */
  lemma GivesUpExactly(cfg: Config, start: int, h: History)
    requires Live(cfg, start, h)
    ensures var v, g := After(cfg, start, h).verdict, Last(h);
      && (v.Return? && v.outcome.NeverRegistered? <==> Running(g) && NeverCame(cfg, start, h))
      && (v.Return? && v.outcome.WaitingTimeout? <==> Running(g) && Blocked(cfg, h))
      && (v.Return? && v.outcome.IdleFailure? <==> Running(g) && !Blocked(cfg, h) && Silent(cfg, start, h))
      && (v.Return? && v.outcome.TimedOut? <==>
            Running(g) && !NeverCame(cfg, start, h) && !Blocked(cfg, h) && !Silent(cfg, start, h) && Capped(cfg, start, h))
  {
    NeverCameOrBlocked(cfg, start, h);
    SilentOrCapped(cfg, start, h);
  }

  /** It goes on exactly when none of them has run out. */
  lemma GoesOnIff(cfg: Config, start: int, h: History)
    requires Live(cfg, start, h)
    ensures After(cfg, start, h).verdict.Continue? <==>
      && Running(Last(h)) && !NeverCame(cfg, start, h) && !Blocked(cfg, h)
      && !Silent(cfg, start, h) && !Capped(cfg, start, h)
  {
    var t := LastSettled(cfg, start, h);
  }

  /** What a give-up reports: the session last listed, and for a silence its length and whether it was reported idle. */
  lemma GiveUpReports(cfg: Config, start: int, h: History)
    requires Live(cfg, start, h)
    ensures var v := After(cfg, start, h).verdict;
      v.Return? && GaveUp(v.outcome) ==>
        && v.at == Now(Last(h))
        && (v.outcome.WaitingTimeout? || v.outcome.IdleFailure? ==> v.outcome.sessionId == IdSeen(h))
        && (v.outcome.IdleFailure? ==>
              && v.outcome.silentForMs == v.at - LastProgress(start, h)
              && v.outcome.reportedIdle == (LastReported(h) == Some(Idle)))
  {
    var t := LastSettled(cfg, start, h);
  }

  // What an iteration gets to read.

  /** A transcript counts exactly if the listing shows this run's session and the file is there and not empty. */
  lemma ReadIff(src: Source, o: Observation)
    ensures var g := GlimpseOf(src, o);
      && (Listed(g).Some? <==>
            !o.aborted && o.payload.Some? && !(IdsAt(SessionsIn(src.parse, o.payload.value), src.cwd) <= src.priorSessionIds))
      && (ReadOf(g).Some? <==> Listed(g).Some? && o.raw.Some? && o.raw.value != "")
      && (Listed(g).Some? ==> Listed(g).value.sessionId !in src.priorSessionIds)
  {
    if o.payload.Some? {
      FindIsExact(SessionsIn(src.parse, o.payload.value), src.cwd, src.priorSessionIds);
    }
  }

  /** The rest of an observation is taken as it is. */
  lemma GlimpseIsFaithful(src: Source, o: Observation)
    ensures var g := GlimpseOf(src, o);
      g.aborted == o.aborted && g.childExited == o.childExited && g.polledAt == o.polledAt && g.readAt == o.readAt
    ensures var g := GlimpseOf(src, o);
      ReadOf(g).Some? ==> ReadOf(g).value == Transcript.Summary(Transcript.Entries(src.parse, o.raw.value))
  {
  }

  /** A read of the grace loop shows the bridge id of the transcript it finds, none if there is no file or an empty one. */
  lemma {:induction false} GraceIsRead(src: Source, grace: seq<RawGraceRead>, i: nat)
    requires i < |grace|
    ensures |GraceOf(src, grace)| == |grace|
    ensures var g, r := GraceOf(src, grace)[i], grace[i];
      && g.aborted == r.aborted && g.at == r.at
      && g.bridge == if r.raw.None? || r.raw.value == "" then None
                     else Transcript.Bridge(Transcript.Entries(src.parse, r.raw.value))
  {
    if i == 0 {
      if |grace| > 1 {
        GraceIsRead(src, grace[1..], 0);
      }
    } else {
      GraceIsRead(src, grace[1..], i - 1);
    }
  }

  /** The link of a bridge id: a `cse_` id names the session of the same rest, any other id itself. */
  lemma UrlNamesSession(rest: string, other: string)
    requires !("cse_" <= other)
    ensures UrlOf("cse_" + rest) == "https://claude.ai/code/session_" + rest
    ensures UrlOf(other) == "https://claude.ai/code/" + other
  {
    assert ("cse_" + rest)[4..] == rest;
    assert "https://claude.ai/code/" + ("session_" + rest) == "https://claude.ai/code/session_" + rest;
  }

  // The grace is really waited for.

  lemma {:induction false} HoldWaits(s: State, grace: seq<GraceRead>, now: int, deadline: int)
    ensures var held := Hold(s, grace, now, deadline);
      held.until.Some? && !held.state.urlReported ==>
        held.until.value >= deadline || exists i :: 0 <= i < |grace| && grace[i].aborted
    decreases |grace|
  {
    if grace != [] && !grace[0].aborted {
      HoldWaits(ReportUrl(s, grace[0].at, grace[0].bridge), grace[1..], grace[0].at, deadline);
      assert forall i :: 0 <= i < |grace| - 1 ==> grace[1..][i] == grace[i + 1];
    }
  }

  /** A turn is completed without its URL only once the grace is over, or after an abort. */
  lemma CompletedWithoutUrlWaited(cfg: Config, start: int, h: History)
    requires Live(cfg, start, h) && FirstBridge(cfg, h).None?
    requires var v := After(cfg, start, h).verdict; v.Return? && v.outcome.Completed?
    ensures var grace := Last(h).grace;
      After(cfg, start, h).verdict.at >= Last(h).readAt + cfg.urlGraceMs || exists i :: 0 <= i < |grace| && grace[i].aborted
  {
    var s, g := After(cfg, start, Front(h)).state, Last(h);
    UrlExactlyOnce(cfg, start, h);
    CompletedIsHeld(cfg, s, g);
    HoldWaits(TakeIn(s, g), g.grace, g.readAt, g.readAt + cfg.urlGraceMs);
  }

  // Heartbeats only break a silence.

  /** Every heartbeat comes `ms` or more after the emit before it, the first counted from the start. */
  predicate HeartbeatsDue(start: int, ms: int, emitted: seq<Emit>) {
    emitted != [] ==>
      && HeartbeatsDue(start, ms, Front(emitted))
      && (Last(emitted).said.Heartbeat? ==> Last(emitted).at - LastSaid(start, Front(emitted)) >= ms)
  }

  predicate Punctual(start: int, ms: int, s: State) {
    HeartbeatsDue(start, ms, s.emitted) && s.lastEmitAt == LastSaid(start, s.emitted)
  }

  lemma SayPunctual(start: int, ms: int, s: State, at: int, said: Said)
    requires Punctual(start, ms, s) && (said.Heartbeat? ==> at - s.lastEmitAt >= ms)
    ensures Punctual(start, ms, Say(s, at, said))
  {
    assert Front(Say(s, at, said).emitted) == s.emitted;
  }

  lemma {:induction false} NarratePunctual(start: int, ms: int, s: State, at: int, events: seq<Transcript.Event>)
    requires Punctual(start, ms, s)
    ensures Punctual(start, ms, Narrate(s, at, events))
  {
    if events == [] {
    } else {
      NarratePunctual(start, ms, s, at, Front(events));
      SayPunctual(start, ms, Narrate(s, at, Front(events)), at, Narrated(Last(events)));
    }
  }

  lemma ReportPunctual(start: int, ms: int, s: State, at: int, bridge: Option<string>)
    requires Punctual(start, ms, s)
    ensures Punctual(start, ms, ReportUrl(s, at, bridge))
  {
    if bridge.Some? && !s.urlReported {
      SayPunctual(start, ms, s.(urlReported := true), at, Url(UrlOf(bridge.value)));
    }
  }

  lemma TakeInPunctual(start: int, ms: int, s: State, g: Glimpse)
    requires Punctual(start, ms, s)
    ensures Punctual(start, ms, TakeIn(s, g))
  {
    if ReadOf(g).Some? {
      var st, at := g.transcript.value, g.readAt;
      var polled := AfterPoll(s, g.session.value, g.polledAt);
      var counted :=
        if st.entryCount > polled.entryCount then polled.(entryCount := st.entryCount, lastProgressAt := at) else polled;
      NarratePunctual(start, ms, counted, at, From(st.events, s.narratedEvents));
      var told := Narrate(counted, at, From(st.events, s.narratedEvents)).(narratedEvents := |st.events|);
      ReportPunctual(start, ms, told, at, st.bridgeSessionId);
    }
  }

  lemma {:induction false} HoldPunctual(start: int, ms: int, s: State, grace: seq<GraceRead>, now: int, deadline: int)
    requires Punctual(start, ms, s)
    ensures Punctual(start, ms, Hold(s, grace, now, deadline).state)
    decreases |grace|
  {
    if grace == [] {
    } else {
      ReportPunctual(start, ms, s, grace[0].at, grace[0].bridge);
      HoldPunctual(start, ms, ReportUrl(s, grace[0].at, grace[0].bridge), grace[1..], grace[0].at, deadline);
    }
  }

  lemma SettlePunctual(start: int, cfg: Config, t: State, g: Glimpse)
    requires Punctual(start, cfg.heartbeatMs, t)
    ensures Punctual(start, cfg.heartbeatMs, Settle(cfg, t, g).state)
  {
    HoldPunctual(start, cfg.heartbeatMs, t, g.grace, g.readAt, g.readAt + cfg.urlGraceMs);
    if Now(g) - t.lastEmitAt >= cfg.heartbeatMs {
      SayPunctual(start, cfg.heartbeatMs, t, Now(g), Heartbeat);
    }
  }

  /** Over every run a heartbeat is only emitted after a full interval without any other emit. */
  lemma {:induction false} HeartbeatsBreakSilence(cfg: Config, start: int, h: History)
    ensures Punctual(start, cfg.heartbeatMs, After(cfg, start, h).state)
  {
    if h == [] {
    } else {
      HeartbeatsBreakSilence(cfg, start, Front(h));
      var s := After(cfg, start, Front(h)).state;
      TakeInPunctual(start, cfg.heartbeatMs, s, Last(h));
      SettlePunctual(start, cfg, TakeIn(s, Last(h)), Last(h));
    }
  }
}
