/** When the Remote Control wait gives up: the clocks of the loop read off the history of observations. */
module RemoteControlClocks {
  import opened Text
  import opened SessionListing
  import opened RemoteControl
  import Transcript

  // What the history alone says, without the loop's variables.

  type History = seq<Glimpse>

  predicate Reports(g: Glimpse, status: Status) {
    Listed(g).Some? && Listed(g).value.status == Some(status)
  }

  /** The length of the transcript a glimpse shows, 0 if it shows none. */
  function Count(g: Glimpse): (n: nat) {
    if ReadOf(g).None? then 0 else ReadOf(g).value.entryCount
  }

  predicate Registered(h: History) {
    h != [] && (Listed(Last(h)).Some? || Registered(Front(h)))
  }

  /** The status in the last listing that had the session at all. */
  function LastReported(h: History): (status: Option<Status>) {
    if h == [] then None else if Listed(Last(h)).Some? then Listed(Last(h)).value.status else LastReported(Front(h))
  }

  /** The session in the last listing that had one. */
  function IdSeen(h: History): (id: Option<string>) {
    if h == [] then None else if Listed(Last(h)).Some? then Some(Listed(Last(h)).value.sessionId) else IdSeen(Front(h))
  }

  /** The longest transcript any read has shown. */
  function Peak(h: History): (n: nat) {
    if h == [] then 0 else if Count(Last(h)) > Peak(Front(h)) then Count(Last(h)) else Peak(Front(h))
  }

  /** The last read shows a longer transcript than all before it. */
  predicate Grew(h: History) {
    h != [] && Count(Last(h)) > Peak(Front(h))
  }

  predicate FirstSeen(h: History) {
    h != [] && Listed(Last(h)).Some? && !Registered(Front(h))
  }

  /** The last time of growth, of a `busy` report, or of the registration. */
  function LastProgress(start: int, h: History): (at: int) {
    if h == [] then start
    else if Grew(h) then Last(h).readAt
    else if Reports(Last(h), Busy) || FirstSeen(h) then Last(h).polledAt
    else LastProgress(start, Front(h))
  }

  /** The start of the unbroken run of `waiting` reports the history ends with. */
  function WaitingSince(h: History): (at: Option<int>) {
    if h == [] then None
    else if Listed(Last(h)).None? then WaitingSince(Front(h))
    else if !Reports(Last(h), Waiting) then None
    else if WaitingSince(Front(h)).Some? then WaitingSince(Front(h))
    else Some(Last(h).polledAt)
  }

  // The loop's variables are exactly those readings.

  predicate SameClocks(s: State, t: State) {
    && s.startedAt == t.startedAt && s.lastProgressAt == t.lastProgressAt && s.sessionFoundAt == t.sessionFoundAt
    && s.entryCount == t.entryCount && s.narratedEvents == t.narratedEvents
    && s.lastStatus == t.lastStatus && s.waitingSinceAt == t.waitingSinceAt
    && s.discoveredSessionId == t.discoveredSessionId
  }

  lemma {:induction false} NarrateKeepsClocks(s: State, at: int, events: seq<Transcript.Event>)
    ensures SameClocks(s, Narrate(s, at, events))
    ensures Narrate(s, at, events).urlReported == s.urlReported
  {
    if events == [] {
    } else {
      NarrateKeepsClocks(s, at, Front(events));
    }
  }

  lemma {:induction false} HoldKeepsClocks(s: State, grace: seq<GraceRead>, now: int, deadline: int)
    ensures SameClocks(s, Hold(s, grace, now, deadline).state)
    decreases |grace|
  {
    if grace == [] {
    } else {
      HoldKeepsClocks(ReportUrl(s, grace[0].at, grace[0].bridge), grace[1..], grace[0].at, deadline);
    }
  }

  /** An iteration changes the clocks only by taking in its glimpse. */
  lemma SettleKeepsClocks(cfg: Config, t: State, g: Glimpse)
    ensures SameClocks(t, Settle(cfg, t, g).state)
  {
    HoldKeepsClocks(t, g.grace, g.readAt, g.readAt + cfg.urlGraceMs);
  }

  lemma AfterReadClocks(s: State, st: Transcript.State, at: int)
    ensures SameClocks(AfterRead(s, st, at),
      s.(entryCount := if st.entryCount > s.entryCount then st.entryCount else s.entryCount,
         lastProgressAt := if st.entryCount > s.entryCount then at else s.lastProgressAt,
         narratedEvents := |st.events|))
  {
    var counted := if st.entryCount > s.entryCount then s.(entryCount := st.entryCount, lastProgressAt := at) else s;
    NarrateKeepsClocks(counted, at, From(st.events, s.narratedEvents));
  }

  lemma TakeInClocks(s: State, g: Glimpse)
    ensures var t := TakeIn(s, g);
      && t.startedAt == s.startedAt
      && t.discoveredSessionId ==
           (if Listed(g).Some? then Some(Listed(g).value.sessionId) else s.discoveredSessionId)
      && t.lastStatus == (if Listed(g).Some? then Listed(g).value.status else s.lastStatus)
      && t.sessionFoundAt.Some? == (Listed(g).Some? || s.sessionFoundAt.Some?)
      && t.entryCount == (if Count(g) > s.entryCount then Count(g) else s.entryCount)
      && t.lastProgressAt ==
           (if Count(g) > s.entryCount then g.readAt
            else if Reports(g, Busy) || (Listed(g).Some? && s.sessionFoundAt.None?) then g.polledAt
            else s.lastProgressAt)
      && t.waitingSinceAt ==
           (if Listed(g).None? then s.waitingSinceAt
            else if !Reports(g, Waiting) then None
            else if s.waitingSinceAt.Some? then s.waitingSinceAt
            else Some(g.polledAt))
  {
    if ReadOf(g).Some? {
      AfterReadClocks(AfterPoll(s, g.session.value, g.polledAt), g.transcript.value, g.readAt);
    }
  }

  predicate IsHistory(start: int, h: History, s: State) {
    && s.startedAt == start
    && s.lastStatus == LastReported(h)
    && s.discoveredSessionId == IdSeen(h)
    && s.sessionFoundAt.Some? == Registered(h)
    && s.entryCount == Peak(h)
    && s.lastProgressAt == LastProgress(start, h)
    && s.waitingSinceAt == WaitingSince(h)
  }

  /** On every run, the loop's variables say exactly what the history says. */
  lemma {:induction false} StateIsHistory(cfg: Config, start: int, h: History)
    requires h == [] || Live(cfg, start, h)
    ensures IsHistory(start, h, After(cfg, start, h).state)
    ensures h != [] ==> IsHistory(start, h, TakeIn(After(cfg, start, Front(h)).state, Last(h)))
  {
    if h == [] {
    } else {
      StateIsHistory(cfg, start, Front(h));
      var s := After(cfg, start, Front(h)).state;
      TakeInClocks(s, Last(h));
      SettleKeepsClocks(cfg, TakeIn(s, Last(h)), Last(h));
    }
  }

  predicate GaveUp(outcome: Outcome) {
    outcome.NeverRegistered? || outcome.WaitingTimeout? || outcome.IdleFailure? || outcome.TimedOut?
  }

  /** Only `Decide` goes on, and only `Decide` gives up. */
  lemma SettleDecides(cfg: Config, t: State, g: Glimpse)
    ensures var v := Settle(cfg, t, g).verdict;
      v.Continue? || (v.Return? && GaveUp(v.outcome)) ==> !g.aborted && v == Decide(cfg, t, Now(g))
  {
  }

  /** The last decision of a run, taken on the history as it then was. */
  lemma LastDecision(cfg: Config, start: int, h: History) returns (t: State)
    requires Live(cfg, start, h)
    requires var v := After(cfg, start, h).verdict; v.Continue? || (v.Return? && GaveUp(v.outcome))
    ensures IsHistory(start, h, t)
    ensures After(cfg, start, h).verdict == Decide(cfg, t, Now(Last(h)))
  {
    var s := After(cfg, start, Front(h)).state;
    t := TakeIn(s, Last(h));
    StateIsHistory(cfg, start, h);
    SettleDecides(cfg, t, Last(h));
  }

  /** At every decision so far, no check fired on the history as it then was. */
  ghost predicate Patient(cfg: Config, start: int, h: History) {
    h != [] ==>
      && Patient(cfg, start, Front(h))
      && (cfg.maxWaitMs.Some? ==> Now(Last(h)) < start + cfg.maxWaitMs.value)
      && var now, since, bound := Now(Last(h)), WaitingSince(h), Bound(cfg, LastReported(h));
         if !Registered(h) then now - start < cfg.startupTimeoutMs
         else
           && (since.Some? ==> now - since.value < cfg.waitingTimeoutMs)
           && (bound.Some? ==> now - LastProgress(start, h) < bound.value)
  }

  lemma DecideIsPatient(cfg: Config, start: int, h: History, t: State)
    requires h != [] && Patient(cfg, start, Front(h))
    requires IsHistory(start, h, t) && Decide(cfg, t, Now(Last(h))).Continue?
    ensures Patient(cfg, start, h)
  {
  }

  /** Going on means that no check has fired. */
  lemma {:induction false} WhileWaiting(cfg: Config, start: int, h: History)
    requires After(cfg, start, h).verdict.Continue?
    ensures Patient(cfg, start, h)
  {
    if h == [] {
    } else {
      WhileWaiting(cfg, start, Front(h));
      var t := LastDecision(cfg, start, h);
      DecideIsPatient(cfg, start, h, t);
    }
  }

  lemma {:induction false} WaitingIsReported(h: History)
    ensures WaitingSince(h).Some? <==> LastReported(h) == Some(Waiting)
  {
    if h == [] {
    } else {
      WaitingIsReported(Front(h));
    }
  }

  // Pace: at most `d` between one decision and the next.

  function LastNow(start: int, h: History): (now: int) {
    if h == [] then start else Now(Last(h))
  }

  predicate Paced(d: nat, start: int, h: History) {
    h != [] ==>
      && Paced(d, start, Front(h))
      && LastNow(start, Front(h)) <= Last(h).polledAt <= Last(h).readAt
      && Now(Last(h)) <= LastNow(start, Front(h)) + d
  }

  /** The last sign of work: growth, the registration, or a decision that still has `busy` as its last report. */
  function LastWork(start: int, h: History): (at: int) {
    if h == [] then start
    else if Grew(h) || LastReported(h) == Some(Busy) then Now(Last(h))
    else if FirstSeen(h) then Last(h).polledAt
    else LastWork(start, Front(h))
  }

  function Silence(cfg: Config): (ms: nat) {
    if cfg.idleTimeoutMs > cfg.idleStatusGraceMs then cfg.idleTimeoutMs else cfg.idleStatusGraceMs
  }

  lemma {:induction false} WorkIsPast(d: nat, start: int, h: History)
    requires Paced(d, start, h)
    ensures start <= LastProgress(start, h) <= LastWork(start, h) <= LastNow(start, h)
    ensures WaitingSince(h).Some? ==> WaitingSince(h).value <= LastNow(start, h)
  {
    if h == [] {
    } else {
      WorkIsPast(d, start, Front(h));
    }
  }

  // Giving up in time.

  /** While the wait goes on it is either within the silence of the last work, or inside a young `waiting` run. */
  lemma {:induction false} WaitStaysInBounds(cfg: Config, d: nat, start: int, h: History)
    requires Patient(cfg, start, h) && Paced(d, start, h) && Registered(h)
    ensures var now, work := LastNow(start, h), LastWork(start, h);
      now <= work + Silence(cfg) || (WaitingSince(h).Some? && WaitingSince(h).value <= work + Silence(cfg) + d)
  {
    var before := Front(h);
    WaitingIsReported(h);
    WaitingIsReported(before);
    WorkIsPast(d, start, h);
    WorkIsPast(d, start, before);
    if before != [] && Registered(before) {
      WaitStaysInBounds(cfg, d, start, before);
    }
  }

  /**
   * The give-up bound: on every paced run, once the session has registered, each decision of the wait (the one
   * that ends it included) comes within both patiences and two iterations of the last sign of work, however the
   * status flips among idle, waiting and absent and however often the listing loses the session.
   */
  lemma GiveUpBound(cfg: Config, d: nat, start: int, h: History)
    requires Live(cfg, start, h)
    requires Paced(d, start, h) && Registered(Front(h))
    ensures Now(Last(h)) <= LastWork(start, Front(h)) + Silence(cfg) + cfg.waitingTimeoutMs + 2 * d
  {
    WhileWaiting(cfg, start, Front(h));
    WaitStaysInBounds(cfg, d, start, Front(h));
  }

  /** Before the session registers, every decision comes within the startup timeout and one iteration. */
  lemma StartupBound(cfg: Config, d: nat, start: int, h: History)
    requires Live(cfg, start, h)
    requires Paced(d, start, h) && !Registered(Front(h))
    ensures Now(Last(h)) <= start + cfg.startupTimeoutMs + d
  {
    WhileWaiting(cfg, start, Front(h));
  }

  /** From index `k` on, no listing says `busy` and no read is longer than all before. */
  predicate QuietFrom(k: nat, h: History) {
    forall i :: k <= i < |h| ==> !Reports(h[i], Busy) && !Grew(h[..i + 1])
  }

  lemma QuietFront(k: nat, h: History)
    requires k < |h| && QuietFrom(k, h)
    ensures QuietFrom(k, Front(h)) && !Reports(Last(h), Busy) && !Grew(h)
  {
    forall i | k <= i < |h| - 1 ensures !Reports(Front(h)[i], Busy) && !Grew(Front(h)[..i + 1]) {
      assert Front(h)[..i + 1] == h[..i + 1];
    }
    assert h[..|h| - 1 + 1] == h;
  }

  lemma {:induction false} QuietDoesNoWork(start: int, k: nat, h: History)
    requires k <= |h| && QuietFrom(k, h)
    requires Registered(h[..k]) && LastReported(h[..k]) != Some(Busy)
    ensures LastWork(start, h) == LastWork(start, h[..k])
    ensures Registered(h) && LastReported(h) != Some(Busy)
  {
    if k == |h| {
      assert h[..k] == h;
    } else {
      assert Front(h)[..k] == h[..k];
      QuietFront(k, h);
      QuietDoesNoWork(start, k, Front(h));
    }
  }

  /** A registered session that goes quiet, its last report not `busy`, ends the wait in bounded time. */
  lemma QuietSessionIsGivenUp(cfg: Config, d: nat, start: int, k: nat, h: History)
    requires Live(cfg, start, h) && k < |h|
    requires Paced(d, start, h) && QuietFrom(k, Front(h)) && Registered(h[..k]) && LastReported(h[..k]) != Some(Busy)
    ensures Now(Last(h)) <= LastWork(start, h[..k]) + Silence(cfg) + cfg.waitingTimeoutMs + 2 * d
  {
    assert Front(h)[..k] == h[..k];
    QuietDoesNoWork(start, k, Front(h));
    GiveUpBound(cfg, d, start, h);
  }

  /** No poll made while the last report is `busy` misses the session. */
  predicate BusyIsSeen(h: History) {
    h != [] ==> BusyIsSeen(Front(h)) && (LastReported(Front(h)) == Some(Busy) ==> Listed(Last(h)).Some?)
  }

  /** Every poll after the registration finds the session. */
  predicate SeenOnceRegistered(h: History) {
    h != [] ==> SeenOnceRegistered(Front(h)) && (Registered(Front(h)) ==> Listed(Last(h)).Some?)
  }

  lemma {:induction false} ReportedIsRegistered(h: History)
    requires LastReported(h).Some?
    ensures Registered(h)
  {
    if Listed(Last(h)).None? {
      ReportedIsRegistered(Front(h));
    }
  }

  lemma {:induction false} SeenIsBusySeen(h: History)
    requires SeenOnceRegistered(h)
    ensures BusyIsSeen(h)
  {
    if h == [] {
    } else {
      SeenIsBusySeen(Front(h));
      if LastReported(Front(h)) == Some(Busy) {
        ReportedIsRegistered(Front(h));
      }
    }
  }

  /** Each iteration that finds the session reads one clock. */
  predicate OneClock(h: History) {
    h != [] ==> OneClock(Front(h)) && (Listed(Last(h)).Some? ==> Last(h).polledAt == Last(h).readAt)
  }

  /**
   * When no poll misses a busy session, the last sign of work is the last progress: exactly, when an iteration reads
   * one clock, and within the length of one iteration otherwise. Polls before the registration, and polls that miss an
   * idle or waiting session, make no difference.
   */
  lemma {:induction false} WorkIsProgress(d: nat, start: int, h: History)
    requires Paced(d, start, h) && BusyIsSeen(h)
    ensures LastWork(start, h) <= LastProgress(start, h) + d
    ensures OneClock(h) ==> LastWork(start, h) == LastProgress(start, h)
  {
    if h == [] {
    } else {
      WorkIsProgress(d, start, Front(h));
    }
  }

  /**
   * The give-up bound from the last progress: when no poll misses a busy session, each decision comes within both
   * patiences of it and two iterations, if an iteration reads one clock, and three otherwise.
   */
  lemma GiveUpFromProgress(cfg: Config, d: nat, start: int, h: History)
    requires Live(cfg, start, h) && Paced(d, start, h) && Registered(Front(h)) && BusyIsSeen(Front(h))
    ensures var bound := LastProgress(start, Front(h)) + Silence(cfg) + cfg.waitingTimeoutMs;
      Now(Last(h)) <= bound + 3 * d && (OneClock(Front(h)) ==> Now(Last(h)) <= bound + 2 * d)
  {
    GiveUpBound(cfg, d, start, h);
    WorkIsProgress(d, start, Front(h));
  }

  /** With `maxWaitMs` set, every decision, whatever the session does, comes within it and one iteration. */
  lemma CapBound(cfg: Config, d: nat, start: int, h: History)
    requires Live(cfg, start, h) && Paced(d, start, h) && cfg.maxWaitMs.Some?
    ensures Now(Last(h)) <= start + cfg.maxWaitMs.value + d
  {
    WhileWaiting(cfg, start, Front(h));
  }

  /** Each iteration takes `m` at least: the sleep at its end. */
  predicate Unhurried(m: nat, start: int, h: History) {
    h != [] ==> Unhurried(m, start, Front(h)) && LastNow(start, Front(h)) + m <= Now(Last(h))
  }

  lemma {:induction false} PollsTakeTime(m: nat, start: int, h: History)
    requires Unhurried(m, start, h)
    ensures m * |h| <= LastNow(start, h) - start
  {
    if h == [] {
    } else {
      PollsTakeTime(m, start, Front(h));
      assert m * |h| == m * |Front(h)| + m;
    }
  }

  /** So the number of polls is bounded too: of a capped wait, and of a wait for a session that has gone quiet. */
  lemma PollsAreBounded(cfg: Config, d: nat, m: nat, start: int, k: nat, h: History)
    requires Live(cfg, start, h) && Paced(d, start, h) && Unhurried(m, start, h)
    ensures cfg.maxWaitMs.Some? ==> m * |h| <= cfg.maxWaitMs.value + d
    ensures k < |h| && QuietFrom(k, Front(h)) && Registered(h[..k]) && LastReported(h[..k]) != Some(Busy) ==>
      m * |h| <= LastWork(start, h[..k]) - start + Silence(cfg) + cfg.waitingTimeoutMs + 2 * d
  {
    PollsTakeTime(m, start, h);
    if cfg.maxWaitMs.Some? {
      CapBound(cfg, d, start, h);
    }
    if k < |h| && QuietFrom(k, Front(h)) && Registered(h[..k]) && LastReported(h[..k]) != Some(Busy) {
      QuietSessionIsGivenUp(cfg, d, start, k, h);
    }
  }

  lemma BusyGoesOn(cfg: Config, t: State, now: int)
    requires t.sessionFoundAt.Some? && t.waitingSinceAt.None? && t.lastStatus == Some(Busy) && cfg.maxWaitMs.None?
    ensures Decide(cfg, t, now).Continue?
  {
  }

  /** While the last report is `busy` nothing but the session itself, its process or the cap ends the wait. */
  lemma BusyIsNeverGivenUp(cfg: Config, start: int, h: History)
    requires Live(cfg, start, h) && cfg.maxWaitMs.None? && LastReported(h) == Some(Busy)
    ensures var v := After(cfg, start, h).verdict; v.Return? ==> !GaveUp(v.outcome)
  {
    ReportedIsRegistered(h);
    WaitingIsReported(h);
    var v := After(cfg, start, h).verdict;
    if v.Return? && GaveUp(v.outcome) {
      var t := LastDecision(cfg, start, h);
      BusyGoesOn(cfg, t, Now(Last(h)));
    }
  }

  /**
   * Why the bound needs a last report other than `busy`: a session that vanishes from the listing while busy is
   * waited for through any number of further polls, at any times, as long as its process stays up and no cap
   * is set.
   */
  lemma {:induction false} VanishedBusySessionIsWaitedFor(cfg: Config, start: int, k: nat, h: History)
    requires 0 < k <= |h| && After(cfg, start, h[..k]).verdict.Continue?
    requires LastReported(h[..k]) == Some(Busy) && cfg.maxWaitMs.None?
    requires forall i :: k <= i < |h| ==> !h[i].aborted && !h[i].childExited && h[i].session.None?
    ensures After(cfg, start, h).verdict.Continue? && LastReported(h) == Some(Busy)
  {
    if k == |h| {
      assert h[..k] == h;
    } else {
      assert Front(h)[..k] == h[..k];
      VanishedBusySessionIsWaitedFor(cfg, start, k, Front(h));
      BusyIsNeverGivenUp(cfg, start, h);
      var t := TakeIn(After(cfg, start, Front(h)).state, Last(h));
      assert Step(cfg, After(cfg, start, Front(h)).state, Last(h)) == Judge(cfg, t, Last(h));
    }
  }

  // Giving up for a reason.

  lemma {:induction false} ProgressIsLast(d: nat, start: int, h: History, i: nat)
    requires Paced(d, start, h) && i < |h|
    ensures Reports(h[i], Busy) || FirstSeen(h[..i + 1]) ==> h[i].polledAt <= LastProgress(start, h)
    ensures Grew(h[..i + 1]) ==> h[i].readAt <= LastProgress(start, h)
  {
    if i == |h| - 1 {
      assert h[..i + 1] == h;
    } else {
      assert Front(h)[..i + 1] == h[..i + 1];
      ProgressIsLast(d, start, Front(h), i);
      WorkIsPast(d, start, Front(h));
    }
  }

  lemma IdleReasons(cfg: Config, t: State, now: int)
    requires var v := Decide(cfg, t, now); v.Return? && v.outcome.IdleFailure?
    ensures var v := Decide(cfg, t, now);
      && t.lastStatus in {None, Some(Idle)}
      && v.at == now
      && v.outcome.reportedIdle == (t.lastStatus == Some(Idle))
      && t.lastProgressAt <= now - (if v.outcome.reportedIdle then cfg.idleStatusGraceMs else cfg.idleTimeoutMs)
  {
  }

  /**
   * An idle failure at time t is backed by the whole run: in the preceding bound no listing said `busy`, no read
   * was longer than all before it and the session did not only then register. The bound is the idle grace if
   * the last reported status was idle and the silence fallback if it was absent.
   */
  lemma IdleFailureIsJustified(cfg: Config, d: nat, start: int, h: History)
    requires Live(cfg, start, h) && Paced(d, start, h)
    requires var v := After(cfg, start, h).verdict; v.Return? && v.outcome.IdleFailure?
    ensures var v := After(cfg, start, h).verdict;
      && LastReported(h) in {None, Some(Idle)}
      && v.outcome.reportedIdle == (LastReported(h) == Some(Idle))
      && var bound := if v.outcome.reportedIdle then cfg.idleStatusGraceMs else cfg.idleTimeoutMs;
         forall i :: 0 <= i < |h| ==>
           && (Reports(h[i], Busy) || FirstSeen(h[..i + 1]) ==> h[i].polledAt <= v.at - bound)
           && (Grew(h[..i + 1]) ==> h[i].readAt <= v.at - bound)
  {
    var t := LastDecision(cfg, start, h);
    IdleReasons(cfg, t, Now(Last(h)));
    forall i | 0 <= i < |h|
      ensures Reports(h[i], Busy) || FirstSeen(h[..i + 1]) ==> h[i].polledAt <= LastProgress(start, h)
      ensures Grew(h[..i + 1]) ==> h[i].readAt <= LastProgress(start, h)
    {
      ProgressIsLast(d, start, h, i);
    }
  }

  /** Where the run of `waiting` reports starts. */
  function WaitingStart(h: History): (k: nat)
    requires WaitingSince(h).Some?
    ensures k < |h| && h[k].polledAt == WaitingSince(h).value && Reports(h[k], Waiting)
  {
    if Listed(Last(h)).None? || WaitingSince(Front(h)).Some? then WaitingStart(Front(h)) else |h| - 1
  }

  lemma {:induction false} WaitingRunIsUnbroken(h: History, i: nat)
    requires WaitingSince(h).Some? && WaitingStart(h) <= i < |h| && Listed(h[i]).Some?
    ensures Reports(h[i], Waiting)
  {
    if i < |h| - 1 {
      WaitingRunIsUnbroken(Front(h), i);
    }
  }

  /** From `k` on, every listing that has the session says `waiting`, the first of them `ms` or more before `now`. */
  predicate WaitingFrom(h: History, k: nat, ms: nat, now: int) {
    && k < |h| && Reports(h[k], Waiting) && h[k].polledAt <= now - ms
    && forall i :: k <= i < |h| && Listed(h[i]).Some? ==> Reports(h[i], Waiting)
  }

  lemma WaitingReasons(cfg: Config, t: State, now: int)
    requires var v := Decide(cfg, t, now); v.Return? && v.outcome.WaitingTimeout?
    ensures t.waitingSinceAt.Some? && t.waitingSinceAt.value <= now - cfg.waitingTimeoutMs && Decide(cfg, t, now).at == now
  {
  }

  /** A waiting failure means unbroken `waiting` reports for the waiting timeout, whatever the transcript did. */
  lemma WaitingFailureIsJustified(cfg: Config, start: int, h: History)
    requires Live(cfg, start, h)
    requires var v := After(cfg, start, h).verdict; v.Return? && v.outcome.WaitingTimeout?
    ensures exists k: nat :: WaitingFrom(h, k, cfg.waitingTimeoutMs, After(cfg, start, h).verdict.at)
  {
    var t := LastDecision(cfg, start, h);
    WaitingReasons(cfg, t, Now(Last(h)));
    var k := WaitingStart(h);
    forall i | k <= i < |h| && Listed(h[i]).Some? ensures Reports(h[i], Waiting) {
      WaitingRunIsUnbroken(h, i);
    }
    assert WaitingFrom(h, k, cfg.waitingTimeoutMs, After(cfg, start, h).verdict.at);
  }
}
