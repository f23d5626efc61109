/** What the Remote Control wait tells its caller: every event once, the URL once, and never a long silence. */
module RemoteControlOutput {
  import opened Text
  import opened RemoteControl
  import opened RemoteControlClocks
  import Transcript

  function Events(emitted: seq<Emit>): (events: seq<Transcript.Event>) {
    if emitted == [] then []
    else Events(Front(emitted)) + (if Last(emitted).said.Narrated? then [Last(emitted).said.event] else [])
  }

  function Urls(emitted: seq<Emit>): (urls: seq<string>) {
    if emitted == [] then []
    else Urls(Front(emitted)) + (if Last(emitted).said.Url? then [Last(emitted).said.url] else [])
  }

  lemma SayTells(s: State, at: int, said: Said)
    ensures Events(Say(s, at, said).emitted) == Events(s.emitted) + (if said.Narrated? then [said.event] else [])
    ensures Urls(Say(s, at, said).emitted) == Urls(s.emitted) + (if said.Url? then [said.url] else [])
  {
    assert Front(Say(s, at, said).emitted) == s.emitted;
  }

  // Exactly-once narration.

  lemma {:induction false} NarrateTells(s: State, at: int, events: seq<Transcript.Event>)
    ensures Events(Narrate(s, at, events).emitted) == Events(s.emitted) + events
    ensures Urls(Narrate(s, at, events).emitted) == Urls(s.emitted)
  {
    if events == [] {
    } else {
      var before, last := Front(events), Last(events);
      NarrateTells(s, at, before);
      SayTells(Narrate(s, at, before), at, Narrated(last));
      assert events == before + [last];
      AppendAssoc(Events(s.emitted), before, [last]);
    }
  }

  lemma ReportTells(s: State, at: int, bridge: Option<string>)
    ensures Events(ReportUrl(s, at, bridge).emitted) == Events(s.emitted)
    ensures Urls(ReportUrl(s, at, bridge).emitted) ==
      Urls(s.emitted) + (if bridge.Some? && !s.urlReported then [UrlOf(bridge.value)] else [])
  {
    if bridge.Some? {
      SayTells(s.(urlReported := true), at, Url(UrlOf(bridge.value)));
    }
  }

  lemma {:induction false} HoldTellsNoEvents(s: State, grace: seq<GraceRead>, now: int, deadline: int)
    ensures Events(Hold(s, grace, now, deadline).state.emitted) == Events(s.emitted)
    decreases |grace|
  {
    if grace == [] {
    } else {
      var bridge := grace[0].bridge;
      ReportTells(s, grace[0].at, bridge);
      HoldTellsNoEvents(ReportUrl(s, grace[0].at, bridge), grace[1..], grace[0].at, deadline);
    }
  }

  /** Only taking in the transcript narrates events. */
  lemma SettleTellsNoEvents(cfg: Config, t: State, g: Glimpse)
    ensures Events(Settle(cfg, t, g).state.emitted) == Events(t.emitted)
  {
    if !g.aborted {
      if TurnComplete(g) {
        HoldTellsNoEvents(t, g.grace, g.readAt, g.readAt + cfg.urlGraceMs);
      } else {
        SayTells(t, Now(g), Heartbeat);
      }
    }
  }

  lemma AfterReadTells(s: State, st: Transcript.State, at: int)
    ensures Events(AfterRead(s, st, at).emitted) == Events(s.emitted) + From(st.events, s.narratedEvents)
    ensures Urls(AfterRead(s, st, at).emitted) ==
      Urls(s.emitted) + (if st.bridgeSessionId.Some? && !s.urlReported then [UrlOf(st.bridgeSessionId.value)] else [])
    ensures AfterRead(s, st, at).urlReported == (s.urlReported || st.bridgeSessionId.Some?)
    ensures AfterRead(s, st, at).narratedEvents == |st.events|
  {
    var counted := if st.entryCount > s.entryCount then s.(entryCount := st.entryCount, lastProgressAt := at) else s;
    var told := Narrate(counted, at, From(st.events, s.narratedEvents)).(narratedEvents := |st.events|);
    NarrateTells(counted, at, From(st.events, s.narratedEvents));
    NarrateKeepsClocks(counted, at, From(st.events, s.narratedEvents));
    ReportTells(told, at, st.bridgeSessionId);
  }

  lemma TakeInTells(s: State, g: Glimpse)
    ensures var t, read := TakeIn(s, g), ReadOf(g);
      if read.None? then Events(t.emitted) == Events(s.emitted) && t.narratedEvents == s.narratedEvents
      else
        var events := read.value.events;
        Events(t.emitted) == Events(s.emitted) + From(events, s.narratedEvents) && t.narratedEvents == |events|
  {
    if ReadOf(g).Some? {
      var polled := AfterPoll(s, g.session.value, g.polledAt);
      AfterReadTells(polled, g.transcript.value, g.readAt);
    }
  }

  /** Every transcript the poll loop reads, in order. */
  function Reads(h: History): (read: seq<Transcript.State>) {
    if h == [] then [] else Reads(Front(h)) + (if ReadOf(Last(h)).Some? then [ReadOf(Last(h)).value] else [])
  }

  function LastEvents(read: seq<Transcript.State>): (events: seq<Transcript.Event>) {
    if read == [] then [] else Last(read).events
  }

  /** Each read keeps the events of the one before. */
  predicate EventsGrow(read: seq<Transcript.State>) {
    read != [] ==> EventsGrow(Front(read)) && LastEvents(Front(read)) <= Last(read).events
  }

  lemma GrowFront(h: History)
    requires h != [] && EventsGrow(Reads(h))
    ensures EventsGrow(Reads(Front(h)))
    ensures ReadOf(Last(h)).None? ==> Reads(h) == Reads(Front(h))
    ensures ReadOf(Last(h)).Some? ==>
      LastEvents(Reads(Front(h))) <= LastEvents(Reads(h)) == ReadOf(Last(h)).value.events
  {
    if ReadOf(Last(h)).Some? {
      assert Front(Reads(h)) == Reads(Front(h));
    } else {
      assert Reads(h) == Reads(Front(h));
    }
  }

  lemma {:induction false} NarratedSoFar(cfg: Config, start: int, h: History)
    requires h == [] || Live(cfg, start, h)
    requires EventsGrow(Reads(h))
    ensures var s, told := After(cfg, start, h).state, LastEvents(Reads(h));
      Events(s.emitted) == told && s.narratedEvents == |told|
  {
    if h == [] {
    } else {
      var g := Last(h);
      GrowFront(h);
      NarratedSoFar(cfg, start, Front(h));
      var s := After(cfg, start, Front(h)).state;
      TakeInTells(s, g);
      SettleTellsNoEvents(cfg, TakeIn(s, g), g);
      SettleKeepsClocks(cfg, TakeIn(s, g), g);
    }
  }

  /** The raw transcripts the poll loop reads, in order. */
  function RawReads(src: Source, obs: seq<Observation>): (raws: seq<string>) {
    if obs == [] then []
    else
      RawReads(src, Front(obs)) + (if ReadOf(GlimpseOf(src, Last(obs))).Some? then [Last(obs).raw.value] else [])
  }

  ghost predicate AllGrow(src: Source, raws: seq<string>) {
    |raws| >= 2 ==> AllGrow(src, Front(raws)) && Transcript.Grows(src.parse, Last(Front(raws)), Last(raws))
  }

  /** The events of the last raw read. */
  function RawEvents(src: Source, raws: seq<string>): (events: seq<Transcript.Event>) {
    if raws == [] then [] else Transcript.Events(Transcript.Entries(src.parse, Last(raws)))
  }

  lemma GrowNext(read: seq<Transcript.State>, st: Transcript.State)
    requires EventsGrow(read) && LastEvents(read) <= st.events
    ensures EventsGrow(read + [st]) && LastEvents(read + [st]) == st.events
  {
    assert Front(read + [st]) == read;
  }

  lemma RawGrowNext(src: Source, raws: seq<string>, raw: string)
    requires AllGrow(src, raws + [raw])
    ensures AllGrow(src, raws) && RawEvents(src, raws) <= RawEvents(src, raws + [raw])
  {
    assert Front(raws + [raw]) == raws;
    if raws != [] {
      Transcript.SummaryGrows(src.parse, Last(raws), raw);
    }
  }

  /** What a read iteration adds to both lists of reads. */
  lemma ReadNext(src: Source, obs: seq<Observation>)
    requires obs != []
    ensures var h, o := GlimpsesOf(src, obs), Last(obs);
      var before, st := GlimpsesOf(src, Front(obs)), ReadOf(GlimpseOf(src, o));
      if st.None? then Reads(h) == Reads(before) && RawReads(src, obs) == RawReads(src, Front(obs))
      else
        && Reads(h) == Reads(before) + [st.value] && o.raw.Some?
        && RawReads(src, obs) == RawReads(src, Front(obs)) + [o.raw.value]
        && st.value.events == RawEvents(src, RawReads(src, obs))
  {
    var h := GlimpsesOf(src, obs);
    assert Front(h) == GlimpsesOf(src, Front(obs)) && Last(h) == GlimpseOf(src, Last(obs));
  }

  lemma {:induction false} GrowingFilesKeepEvents(src: Source, obs: seq<Observation>)
    requires AllGrow(src, RawReads(src, obs))
    ensures EventsGrow(Reads(GlimpsesOf(src, obs)))
    ensures LastEvents(Reads(GlimpsesOf(src, obs))) == RawEvents(src, RawReads(src, obs))
  {
    if obs == [] {
    } else {
      ReadNext(src, obs);
      var st := ReadOf(GlimpseOf(src, Last(obs)));
      if st.Some? {
        RawGrowNext(src, RawReads(src, Front(obs)), Last(obs).raw.value);
        GrowingFilesKeepEvents(src, Front(obs));
        GrowNext(Reads(GlimpsesOf(src, Front(obs))), st.value);
      } else {
        GrowingFilesKeepEvents(src, Front(obs));
      }
    }
  }

  /**
   * Exactly-once narration: over any run whose transcript reads each extend the one before, torn last lines
   * included, what has been narrated is exactly the events of the last read, in order.
   */
  lemma NarratedExactlyOnce(src: Source, cfg: Config, start: int, obs: seq<Observation>)
    requires obs == [] || Live(cfg, start, GlimpsesOf(src, obs))
    requires AllGrow(src, RawReads(src, obs))
    ensures Events(After(cfg, start, GlimpsesOf(src, obs)).state.emitted) == RawEvents(src, RawReads(src, obs))
  {
    GrowingFilesKeepEvents(src, obs);
    NarratedSoFar(cfg, start, GlimpsesOf(src, obs));
  }

  /** Successive reads of one file, each at least as long as the one before. */
  predicate ReadsOf(file: string, raws: seq<string>) {
    raws != [] ==>
      && Last(raws) <= file && ReadsOf(file, Front(raws))
      && (|raws| >= 2 ==> Last(Front(raws)) <= Last(raws))
  }

  lemma {:induction false} ReadsOfGrow(src: Source, file: string, raws: seq<string>)
    requires Transcript.ObjectsEndOnce(src.parse) && Transcript.IsObjectLog(src.parse, file) && ReadsOf(file, raws)
    ensures AllGrow(src, raws)
  {
    if |raws| < 2 {
    } else {
      ReadsOfGrow(src, file, Front(raws));
      Transcript.ReadsOfOneFileGrow(src.parse, file, Last(Front(raws)), Last(raws));
    }
  }

  /**
   * Exactly-once narration of one transcript, read again and again while it is written: whatever the points at which
   * the reads cut it, what has been narrated is exactly the events of the last read, in order.
   */
  lemma NarratedFromOneFile(src: Source, cfg: Config, start: int, obs: seq<Observation>, file: string)
    requires obs == [] || Live(cfg, start, GlimpsesOf(src, obs))
    requires Transcript.ObjectsEndOnce(src.parse) && Transcript.IsObjectLog(src.parse, file)
    requires ReadsOf(file, RawReads(src, obs))
    ensures Events(After(cfg, start, GlimpsesOf(src, obs)).state.emitted) == RawEvents(src, RawReads(src, obs))
  {
    ReadsOfGrow(src, file, RawReads(src, obs));
    NarratedExactlyOnce(src, cfg, start, obs);
  }

  lemma {:induction false} NarrateStarts(s: State, at: int, events: seq<Transcript.Event>)
    ensures Narrate(s, at, events).sawTurnActivity == (s.sawTurnActivity || events != [])
  {
    if events == [] {
    } else {
      NarrateStarts(s, at, Front(events));
    }
  }

  lemma {:induction false} HoldKeepsActivity(s: State, grace: seq<GraceRead>, now: int, deadline: int)
    ensures Hold(s, grace, now, deadline).state.sawTurnActivity == s.sawTurnActivity
    decreases |grace|
  {
    if grace == [] {
    } else {
      HoldKeepsActivity(ReportUrl(s, grace[0].at, grace[0].bridge), grace[1..], grace[0].at, deadline);
    }
  }

  lemma TakeInStarts(s: State, g: Glimpse)
    ensures var read := ReadOf(g);
      TakeIn(s, g).sawTurnActivity ==
        (s.sawTurnActivity || (read.Some? && From(read.value.events, s.narratedEvents) != []))
  {
    if ReadOf(g).Some? {
      var st, polled := ReadOf(g).value, AfterPoll(s, g.session.value, g.polledAt);
      var counted :=
        if st.entryCount > polled.entryCount then polled.(entryCount := st.entryCount, lastProgressAt := g.readAt) else polled;
      NarrateStarts(counted, g.readAt, From(st.events, s.narratedEvents));
    }
  }

  lemma SettleKeepsActivity(cfg: Config, t: State, g: Glimpse)
    ensures var r := Settle(cfg, t, g);
      && r.state.sawTurnActivity == t.sawTurnActivity
      && (r.verdict.Return? && r.verdict.outcome.IdleFailure? ==> r.verdict.outcome.startedTurn == t.sawTurnActivity)
  {
    HoldKeepsActivity(t, g.grace, g.readAt, g.readAt + cfg.urlGraceMs);
  }

  /** A give-up that says the session never started its turn is one before which nothing was narrated, and conversely. */
  lemma {:induction false} StartedIffNarrated(cfg: Config, start: int, h: History)
    requires h == [] || Live(cfg, start, h)
    ensures var r := After(cfg, start, h);
      && (r.state.sawTurnActivity <==> Events(r.state.emitted) != [])
      && (h != [] && r.verdict.Return? && r.verdict.outcome.IdleFailure? ==>
            (r.verdict.outcome.startedTurn <==> Events(r.state.emitted) != []))
  {
    if h == [] {
    } else {
      var s, g := After(cfg, start, Front(h)).state, Last(h);
      StartedIffNarrated(cfg, start, Front(h));
      TakeInStarts(s, g);
      TakeInTells(s, g);
      SettleTellsNoEvents(cfg, TakeIn(s, g), g);
      SettleKeepsActivity(cfg, TakeIn(s, g), g);
    }
  }

  /** A finished turn ends as such, with its last text, whatever the listing, the process or the clocks say. */
  lemma FinishedTurnOutranksFailures(cfg: Config, start: int, h: History)
    requires Live(cfg, start, h) && !Last(h).aborted && TurnComplete(Last(h))
    ensures var text, id := ReadOf(Last(h)).value.finalText, Some(Listed(Last(h)).value.sessionId);
      match After(cfg, start, h).verdict
      case Return(Completed(reply, owner), _) => !cfg.isAuthNotice(text) && reply == text && owner == id
      case Return(AuthFailure(reply, owner), _) => cfg.isAuthNotice(text) && reply == text && owner == id
      case v => v.InGrace? && !cfg.isAuthNotice(text)
  {
  }

  // The URL.

  /** The first bridge id a read of the grace loop shows, among the reads that loop makes. */
  function FirstGraceBridge(grace: seq<GraceRead>, now: int, deadline: int): (bridge: Option<string>)
    decreases |grace|
  {
    if now >= deadline || grace == [] || grace[0].aborted then None
    else if grace[0].bridge.Some? then grace[0].bridge
    else FirstGraceBridge(grace[1..], grace[0].at, deadline)
  }

  /** The first bridge id one iteration shows, in the poll loop's read or in the grace loop of a finished turn. */
  function IterationBridge(cfg: Config, g: Glimpse): (bridge: Option<string>) {
    if ReadOf(g).None? then None
    else
      var st := ReadOf(g).value;
      if st.bridgeSessionId.Some? then st.bridgeSessionId
      else if !st.turnComplete || cfg.isAuthNotice(st.finalText) then None
      else FirstGraceBridge(g.grace, g.readAt, g.readAt + cfg.urlGraceMs)
  }

  /** The first bridge id any transcript read of the run shows. */
  function FirstBridge(cfg: Config, h: History): (bridge: Option<string>) {
    if h == [] then None
    else if FirstBridge(cfg, Front(h)).Some? then FirstBridge(cfg, Front(h))
    else IterationBridge(cfg, Last(h))
  }

  function UrlsOf(bridge: Option<string>): (urls: seq<string>) {
    if bridge.None? then [] else [UrlOf(bridge.value)]
  }

  lemma {:induction false} HoldUrls(s: State, grace: seq<GraceRead>, now: int, deadline: int)
    requires !s.urlReported
    ensures var t, bridge := Hold(s, grace, now, deadline).state, FirstGraceBridge(grace, now, deadline);
      Urls(t.emitted) == Urls(s.emitted) + UrlsOf(bridge) && t.urlReported == bridge.Some?
    decreases |grace|
  {
    if now < deadline && grace != [] && !grace[0].aborted {
      var bridge := grace[0].bridge;
      ReportTells(s, grace[0].at, bridge);
      if bridge.None? {
        HoldUrls(s, grace[1..], grace[0].at, deadline);
      }
    }
  }

  lemma JudgeUrls(cfg: Config, t: State, g: Glimpse)
    ensures Urls(Judge(cfg, t, g).state.emitted) == Urls(t.emitted) && Judge(cfg, t, g).state.urlReported == t.urlReported
  {
    SayTells(t, Now(g), Heartbeat);
  }

  lemma FinishUrls(
    cfg: Config, s: State, text: Option<string>, sessionId: Option<string>, grace: seq<GraceRead>, now: int)
    ensures var t := Finish(cfg, s, text, sessionId, grace, now).state;
      var bridge :=
        if s.urlReported || cfg.isAuthNotice(text) then None else FirstGraceBridge(grace, now, now + cfg.urlGraceMs);
      Urls(t.emitted) == Urls(s.emitted) + UrlsOf(bridge) && t.urlReported == (s.urlReported || bridge.Some?)
  {
    if !s.urlReported {
      HoldUrls(s, grace, now, now + cfg.urlGraceMs);
    }
  }

  lemma StepUrls(cfg: Config, s: State, g: Glimpse)
    ensures var t, bridge := Step(cfg, s, g).state, if s.urlReported then None else IterationBridge(cfg, g);
      Urls(t.emitted) == Urls(s.emitted) + UrlsOf(bridge) && t.urlReported == (s.urlReported || bridge.Some?)
  {
    var t, read := TakeIn(s, g), ReadOf(g);
    if read.Some? {
      AfterReadTells(AfterPoll(s, g.session.value, g.polledAt), read.value, g.readAt);
    }
    if !g.aborted {
      if TurnComplete(g) {
        FinishUrls(cfg, t, read.value.finalText, IdOf(g.session), g.grace, g.readAt);
      } else {
        JudgeUrls(cfg, t, g);
      }
    }
  }

  /**
   * The URL over every run: none while no read has shown a bridge id, and from the first read that does, in
   * either loop, exactly one, that bridge's.
   */
  lemma {:induction false} UrlExactlyOnce(cfg: Config, start: int, h: History)
    requires h == [] || Live(cfg, start, h)
    ensures var s := After(cfg, start, h).state;
      Urls(s.emitted) == UrlsOf(FirstBridge(cfg, h)) && s.urlReported == FirstBridge(cfg, h).Some?
  {
    if h == [] {
    } else {
      UrlExactlyOnce(cfg, start, Front(h));
      StepUrls(cfg, After(cfg, start, Front(h)).state, Last(h));
    }
  }

  /** The reads of the grace loop come at most `d` apart. */
  predicate GracePaced(d: nat, now: int, grace: seq<GraceRead>)
    decreases |grace|
  {
    grace != [] ==> now <= grace[0].at <= now + d && GracePaced(d, grace[0].at, grace[1..])
  }

  lemma {:induction false} HoldEnds(d: nat, s: State, grace: seq<GraceRead>, now: int, deadline: int)
    requires GracePaced(d, now, grace) && now <= deadline
    ensures var until := Hold(s, grace, now, deadline).until;
      until.Some? ==> now <= until.value <= deadline + d && (s.urlReported ==> until.value == now)
    decreases |grace|
  {
    if !s.urlReported && now < deadline && grace != [] && !grace[0].aborted {
      var t := ReportUrl(s, grace[0].at, grace[0].bridge);
      if grace[0].at <= deadline {
        HoldEnds(d, t, grace[1..], grace[0].at, deadline);
      }
    }
  }

  lemma JudgeNeverCompletes(cfg: Config, t: State, g: Glimpse)
    ensures var v := Judge(cfg, t, g).verdict; !v.InGrace? && (v.Return? ==> !v.outcome.Completed? && v.at == Now(g))
  {
  }

  lemma CompletedIsHeld(cfg: Config, s: State, g: Glimpse)
    requires var v := Step(cfg, s, g).verdict; v.Return? && v.outcome.Completed?
    ensures !g.aborted && TurnComplete(g)
    ensures Hold(TakeIn(s, g), g.grace, g.readAt, g.readAt + cfg.urlGraceMs).until == Some(Step(cfg, s, g).verdict.at)
  {
    var t := TakeIn(s, g);
    if !g.aborted && !TurnComplete(g) {
      JudgeNeverCompletes(cfg, t, g);
    }
  }

  /**
   * A completed turn is held for at most the URL grace and one poll after the read that completed it, and not
   * at all once the URL is known.
   */
  lemma CompletedTurnIsHeldBriefly(cfg: Config, d: nat, start: int, h: History)
    requires Live(cfg, start, h) && GracePaced(d, Last(h).readAt, Last(h).grace)
    requires var v := After(cfg, start, h).verdict; v.Return? && v.outcome.Completed?
    ensures var at, read := After(cfg, start, h).verdict.at, Last(h).readAt;
      && TurnComplete(Last(h))
      && read <= at <= read + cfg.urlGraceMs + d
      && (FirstBridge(cfg, Front(h)).Some? ==> at == read)
  {
    var s, g := After(cfg, start, Front(h)).state, Last(h);
    UrlExactlyOnce(cfg, start, Front(h));
    CompletedIsHeld(cfg, s, g);
    var t := TakeIn(s, g);
    HoldEnds(d, t, g.grace, g.readAt, g.readAt + cfg.urlGraceMs);
    AfterReadTells(AfterPoll(s, g.session.value, g.polledAt), g.transcript.value, g.readAt);
  }

  // Silence.

  function LastSaid(start: int, emitted: seq<Emit>): (at: int) {
    if emitted == [] then start else Last(emitted).at
  }

  /** Consecutive emits, the first counted from the start of the wait, are in order and less than `gap` apart. */
  predicate Spaced(start: int, gap: int, emitted: seq<Emit>) {
    emitted != [] ==>
      Spaced(start, gap, Front(emitted)) && 0 <= Last(emitted).at - LastSaid(start, Front(emitted)) < gap
  }

  predicate Speaks(start: int, gap: int, s: State) {
    Spaced(start, gap, s.emitted) && s.lastEmitAt == LastSaid(start, s.emitted)
  }

  lemma {:induction false} SpacedWider(start: int, gap: int, wider: int, emitted: seq<Emit>)
    requires Spaced(start, gap, emitted) && gap <= wider
    ensures Spaced(start, wider, emitted)
  {
    if emitted == [] {
    } else {
      SpacedWider(start, gap, wider, Front(emitted));
    }
  }

  lemma SaySpeaks(start: int, gap: int, s: State, at: int, said: Said)
    requires Speaks(start, gap, s) && 0 <= at - s.lastEmitAt < gap
    ensures Speaks(start, gap, Say(s, at, said))
  {
    assert Front(Say(s, at, said).emitted) == s.emitted;
  }

  lemma {:induction false} NarrateSpeaks(start: int, gap: int, s: State, at: int, events: seq<Transcript.Event>)
    requires Speaks(start, gap, s) && 0 <= at - s.lastEmitAt < gap
    ensures Speaks(start, gap, Narrate(s, at, events))
    ensures Narrate(s, at, events).lastEmitAt == (if events == [] then s.lastEmitAt else at)
  {
    if events == [] {
    } else {
      NarrateSpeaks(start, gap, s, at, Front(events));
      SaySpeaks(start, gap, Narrate(s, at, Front(events)), at, Narrated(Last(events)));
    }
  }

  lemma AfterReadSpeaks(start: int, gap: int, s: State, st: Transcript.State, at: int)
    requires Speaks(start, gap, s) && 0 <= at - s.lastEmitAt < gap
    ensures var t := AfterRead(s, st, at); Speaks(start, gap, t) && t.lastEmitAt in {s.lastEmitAt, at}
  {
    var counted := if st.entryCount > s.entryCount then s.(entryCount := st.entryCount, lastProgressAt := at) else s;
    var told := Narrate(counted, at, From(st.events, s.narratedEvents)).(narratedEvents := |st.events|);
    NarrateSpeaks(start, gap, counted, at, From(st.events, s.narratedEvents));
    if st.bridgeSessionId.Some? {
      SaySpeaks(start, gap, told.(urlReported := true), at, Url(UrlOf(st.bridgeSessionId.value)));
    }
  }

  lemma TakeInSpeaks(start: int, gap: int, s: State, g: Glimpse)
    requires Speaks(start, gap, s) && 0 <= g.readAt - s.lastEmitAt < gap
    ensures var t := TakeIn(s, g); Speaks(start, gap, t) && t.lastEmitAt in {s.lastEmitAt, g.readAt}
    ensures ReadOf(g).None? ==> TakeIn(s, g).lastEmitAt == s.lastEmitAt
  {
    if ReadOf(g).Some? {
      AfterReadSpeaks(start, gap, AfterPoll(s, g.session.value, g.polledAt), g.transcript.value, g.readAt);
    }
  }

  lemma {:induction false} HoldSpeaks(
    start: int, gap: int, d: nat, s: State, grace: seq<GraceRead>, now: int, deadline: int)
    requires Speaks(start, gap, s) && GracePaced(d, now, grace) && s.lastEmitAt <= now
    requires deadline + d - s.lastEmitAt < gap
    ensures var t := Hold(s, grace, now, deadline).state; Speaks(start, gap, t) && t.lastEmitAt >= s.lastEmitAt
    decreases |grace|
  {
    if !s.urlReported && now < deadline && grace != [] && !grace[0].aborted {
      var bridge := grace[0].bridge;
      if bridge.Some? {
        SaySpeaks(start, gap, s.(urlReported := true), grace[0].at, Url(UrlOf(bridge.value)));
      } else {
        HoldSpeaks(start, gap, d, s, grace[1..], grace[0].at, deadline);
      }
    }
  }

  lemma JudgeSpeaks(start: int, gap: int, cfg: Config, t: State, g: Glimpse)
    requires Speaks(start, gap, t) && 0 <= Now(g) - t.lastEmitAt < gap && 0 < cfg.heartbeatMs
    ensures var r := Judge(cfg, t, g);
      && Speaks(start, gap, r.state)
      && 0 <= Now(g) - r.state.lastEmitAt < gap
      && (r.verdict.Continue? ==> Now(g) - r.state.lastEmitAt < cfg.heartbeatMs)
  {
    SaySpeaks(start, gap, t, Now(g), Heartbeat);
  }

  lemma ContinueIsJudged(cfg: Config, t: State, g: Glimpse)
    requires Settle(cfg, t, g).verdict.Continue?
    ensures Settle(cfg, t, g) == Judge(cfg, t, g)
  {
  }

  /** While the wait goes on: emits less than a heartbeat and one iteration apart, the last less than a heartbeat ago. */
  lemma {:induction false} NeverSilentWhileWaiting(cfg: Config, d: nat, start: int, h: History)
    requires After(cfg, start, h).verdict.Continue?
    requires Paced(d, start, h) && 0 < cfg.heartbeatMs
    ensures var s, now := After(cfg, start, h).state, LastNow(start, h);
      Speaks(start, cfg.heartbeatMs + d, s) && 0 <= now - s.lastEmitAt < cfg.heartbeatMs
  {
    if h == [] {
    } else {
      var s, g := After(cfg, start, Front(h)).state, Last(h);
      NeverSilentWhileWaiting(cfg, d, start, Front(h));
      var t := TakeIn(s, g);
      SettleDecides(cfg, t, g);
      assert !g.aborted;
      if Listed(g).Some? {
        TakeInSpeaks(start, cfg.heartbeatMs + d, s, g);
      }
      ContinueIsJudged(cfg, t, g);
      JudgeSpeaks(start, cfg.heartbeatMs + d, cfg, t, g);
    }
  }

  /** The longest silence: a heartbeat and one iteration, plus the URL grace and its last poll for a finished turn. */
  function Gap(cfg: Config, d: nat, g: Glimpse): (gap: nat) {
    cfg.heartbeatMs + d + (if TurnComplete(g) then cfg.urlGraceMs + d else 0)
  }

  lemma {:induction false} HoldSaysInTime(d: nat, s: State, grace: seq<GraceRead>, now: int, deadline: int)
    requires GracePaced(d, now, grace) && s.lastEmitAt <= now
    ensures var held := Hold(s, grace, now, deadline); held.until.Some? ==> held.state.lastEmitAt <= held.until.value
    decreases |grace|
  {
    if grace == [] {
    } else {
      HoldSaysInTime(d, ReportUrl(s, grace[0].at, grace[0].bridge), grace[1..], grace[0].at, deadline);
    }
  }

  lemma FinishSpeaks(
    start: int, gap: int, d: nat, cfg: Config, s: State, text: Option<string>, sessionId: Option<string>,
    grace: seq<GraceRead>, now: int)
    requires Speaks(start, gap, s) && GracePaced(d, now, grace) && s.lastEmitAt <= now
    requires now + cfg.urlGraceMs + d - s.lastEmitAt < gap
    ensures var r := Finish(cfg, s, text, sessionId, grace, now);
      Speaks(start, gap, r.state) && (r.verdict.Return? ==> 0 <= r.verdict.at - r.state.lastEmitAt < gap)
  {
    HoldSpeaks(start, gap, d, s, grace, now, now + cfg.urlGraceMs);
    HoldEnds(d, s, grace, now, now + cfg.urlGraceMs);
    HoldSaysInTime(d, s, grace, now, now + cfg.urlGraceMs);
  }

  /**
   * The caller silence bound over every run, whatever the session does: no two consecutive emits, and no last
   * emit and the return, are `Gap` or more apart.
   */
  lemma NeverSilent(cfg: Config, d: nat, start: int, h: History)
    requires Live(cfg, start, h) && 0 < cfg.heartbeatMs
    requires Paced(d, start, h) && GracePaced(d, Last(h).readAt, Last(h).grace)
    ensures var r, gap := After(cfg, start, h), Gap(cfg, d, Last(h));
      && Spaced(start, gap, r.state.emitted)
      && (r.verdict.Return? ==> 0 <= r.verdict.at - LastSaid(start, r.state.emitted) < gap)
  {
    var s, g, gap := After(cfg, start, Front(h)).state, Last(h), Gap(cfg, d, Last(h));
    NeverSilentWhileWaiting(cfg, d, start, Front(h));
    SpacedWider(start, cfg.heartbeatMs + d, gap, s.emitted);
    var t := TakeIn(s, g);
    if !g.aborted {
      if Listed(g).Some? {
        TakeInSpeaks(start, gap, s, g);
      }
      if TurnComplete(g) {
        FinishSpeaks(start, gap, d, cfg, t, g.transcript.value.finalText,
                     IdOf(g.session), g.grace, g.readAt);
      } else {
        JudgeSpeaks(start, gap, cfg, t, g);
        JudgeNeverCompletes(cfg, t, g);
      }
    }
  }
}
