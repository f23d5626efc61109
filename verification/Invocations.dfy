/**
 * The record of one accepted `/invoke`: the detached promise chain that settles it, and the two listeners that
 * update it while it is pending. Every `await` is one event, so the environment decides the interleaving and
 * which store calls fail.
 */
module Invocations {
  import opened Text

  datatype Status = Pending | Succeeded | Failed

  datatype Record = Record(status: Status, remoteControlUrl: Option<string>, identityLink: Option<string>)

  /** What the graph resolves with, as far as the record is concerned. */
  datatype Settled = Settled(error: bool, identityLink: Option<string>)

  /** Where the chain waits: each phase is the await its next event completes. */
  datatype Phase =
    | BuildingInput
    | PatchingMode
    | RunningGraph
    | PersistingSession(settled: Settled)
    | ReadingUrl(settled: Settled)
    | ReadingUrlAfterFailure
    | Storing(terminal: Record)
    | Done

  datatype Update = Url(url: string) | LinkNeeded(link: string)

  datatype Event =
    | Resolved                     // the awaited call of the current phase succeeds
    | GraphResolved(settled: Settled)
    | Rejected                     // the awaited call of the current phase fails
    | Listener(update: Update)     // a listener's read and write with nothing in between
    | ListenerReads
    | ListenerWrites(call: nat, update: Update)
    | Expired                      // the store drops the record

  /** `history` is every record the store accepted, `seen` what each pending listener call read and has not written yet. */
  datatype State = State(
    phase: Phase, stored: Option<Record>, terminalAttempts: nat, history: seq<Record>, seen: seq<Record>)

  const PENDING := Record(Pending, None, None)

  function Accepted(): (s: State) {
    State(BuildingInput, Some(PENDING), 0, [PENDING], [])
  }

  function FailedWith(url: Option<string>): (r: Record) {
    Record(Failed, url, None)
  }

  function StoredUrl(s: State): (url: Option<string>) {
    if s.stored.Some? then s.stored.value.remoteControlUrl else None
  }

  function TerminalRecord(settled: Settled, url: Option<string>): (r: Record) {
    Record(if settled.error then Failed else Succeeded, url, settled.identityLink)
  }

  function Put(s: State, r: Record): (t: State) {
    s.(stored := Some(r), history := s.history + [r])
  }

  function Updated(r: Record, update: Update): (u: Record) {
    match update
    case Url(url) => r.(remoteControlUrl := Some(url))
    case LinkNeeded(link) => r.(identityLink := Some(link))
  }

  function IsPending(r: Option<Record>): (pending: bool) {
    r.Some? && r.value.status.Pending?
  }

  /** The chain's own event `ok`: the inner catch reads the URL again, the outer catch stores without one. */
  function Advance(s: State, ok: bool): (t: State) {
    match s.phase
    case BuildingInput => s.(phase := if ok then PatchingMode else Storing(FailedWith(None)))
    case PatchingMode => s.(phase := if ok then RunningGraph else Storing(FailedWith(None)))
    case RunningGraph => if ok then s else s.(phase := ReadingUrlAfterFailure)
    case PersistingSession(settled) => s.(phase := if ok then ReadingUrl(settled) else ReadingUrlAfterFailure)
    case ReadingUrl(settled) =>
      s.(phase := if ok then Storing(TerminalRecord(settled, StoredUrl(s))) else ReadingUrlAfterFailure)
    case ReadingUrlAfterFailure => s.(phase := Storing(FailedWith(if ok then StoredUrl(s) else None)))
    case Storing(terminal) =>
      (if ok then Put(s, terminal) else s).(phase := Done, terminalAttempts := s.terminalAttempts + 1)
    case Done => s
  }

  function Next(s: State, e: Event): (t: State) {
    match e
    case Resolved => Advance(s, true)
    case Rejected => Advance(s, false)
    case GraphResolved(settled) => if s.phase.RunningGraph? then s.(phase := PersistingSession(settled)) else s
    case Listener(update) => if IsPending(s.stored) then Put(s, Updated(s.stored.value, update)) else s
    case ListenerReads => if IsPending(s.stored) then s.(seen := s.seen + [s.stored.value]) else s
    case ListenerWrites(call, update) =>
      if call < |s.seen| then Put(s, Updated(s.seen[call], update)).(seen := s.seen[..call] + s.seen[call + 1..]) else s
    case Expired => s.(stored := None)
  }

  function Run(s: State, events: seq<Event>): (t: State) {
    if events == [] then s else Next(Run(s, Front(events)), Last(events))
  }

  /** The chain and the listeners over one stored record, updated in place. */
  class Invocation {
    var phase: Phase
    var stored: Option<Record>
    var terminalAttempts: nat
    var history: seq<Record>
    var seen: seq<Record>

    function View(): (s: State)
      reads this
    {
      State(phase, stored, terminalAttempts, history, seen)
    }

    constructor ()
      ensures View() == Accepted()
    {
      phase, terminalAttempts := BuildingInput, 0;
      stored, history, seen := Some(PENDING), [PENDING], [];
    }

    method Set(r: Record)
      modifies this`stored, this`history
      ensures View() == Put(old(View()), r)
    {
      stored := Some(r);
      history := history + [r];
    }

    /** `persistTerminalInvocation`: one attempt, whose failure is swallowed. */
    method PersistTerminal(r: Record, ok: bool)
      requires phase == Storing(r)
      modifies this
      ensures View() == Advance(old(View()), ok)
    {
      terminalAttempts := terminalAttempts + 1;
      if ok {
        Set(r);
      }
      phase := Done;
    }

    /** A listener reads the record, and goes on only if it is pending. */
    method OnListenerReads()
      modifies this`seen
      ensures View() == Next(old(View()), ListenerReads)
    {
      if stored.Some? && stored.value.status.Pending? {
        seen := seen + [stored.value];
      }
    }

    /** The write of a listener's call, whatever the store holds by then. */
    method OnListenerWrites(call: nat, update: Update)
      modifies this`stored, this`history, this`seen
      ensures View() == Next(old(View()), ListenerWrites(call, update))
    {
      if call < |seen| {
        Set(Updated(seen[call], update));
        seen := seen[..call] + seen[call + 1..];
      }
    }

    /** Both halves with nothing in between: only a pending record is touched. */
    method OnUpdate(update: Update)
      modifies this`stored, this`history, this`seen
      ensures View() == Next(old(View()), Listener(update))
    {
      var before := seen;
      OnListenerReads();
      if |seen| > |before| {
        OnListenerWrites(|before|, update);
        assert before + [] == before;
      }
    }

    method OnAwaited(ok: bool)
      modifies this
      ensures View() == Advance(old(View()), ok)
    {
      match phase {
        case BuildingInput => phase := if ok then PatchingMode else Storing(FailedWith(None));
        case PatchingMode => phase := if ok then RunningGraph else Storing(FailedWith(None));
        case RunningGraph =>
          if !ok {
            phase := ReadingUrlAfterFailure;
          }
        case PersistingSession(settled) => phase := if ok then ReadingUrl(settled) else ReadingUrlAfterFailure;
        case ReadingUrl(settled) =>
          var url := if stored.Some? then stored.value.remoteControlUrl else None;
          phase := if ok then Storing(TerminalRecord(settled, url)) else ReadingUrlAfterFailure;
        case ReadingUrlAfterFailure =>
          var url := if ok && stored.Some? then stored.value.remoteControlUrl else None;
          phase := Storing(FailedWith(url));
        case Storing(terminal) => PersistTerminal(terminal, ok);
        case Done =>
      }
    }

    method OnGraphResolved(settled: Settled)
      modifies this
      ensures View() == Next(old(View()), GraphResolved(settled))
    {
      if phase.RunningGraph? {
        phase := PersistingSession(settled);
      }
    }
  }

  // Exactly one terminal write.

  /** The chain events that complete an await in this phase. */
  predicate Completes(phase: Phase, e: Event) {
    match phase
    case Done => false
    case RunningGraph => e.GraphResolved? || e.Rejected?
    case _ => e.Resolved? || e.Rejected?
  }

  /** How many awaits the chain can still make. */
  function Remaining(phase: Phase): (n: nat) {
    match phase
    case BuildingInput => 7
    case PatchingMode => 6
    case RunningGraph => 5
    case PersistingSession(_) => 4
    case ReadingUrl(_) => 3
    case ReadingUrlAfterFailure => 2
    case Storing(_) => 1
    case Done => 0
  }

  /** How many of the events completed an await of the chain. */
  function Completed(s: State, events: seq<Event>): (n: nat) {
    if events == [] then 0
    else Completed(s, Front(events)) + (if Completes(Run(s, Front(events)).phase, Last(events)) then 1 else 0)
  }

  /**
   * For every combination of failures and every interleaving, split listeners included: the terminal write has
   * been attempted exactly once if the chain is done and not at all before, and each completed await brings the
   * chain closer to done, so seven of them are always enough.
   */
  lemma {:induction false} ExactlyOneTerminalAttempt(events: seq<Event>)
    ensures var s := Run(Accepted(), events);
      && s.terminalAttempts == (if s.phase.Done? then 1 else 0)
      && Remaining(s.phase) + Completed(Accepted(), events) <= 7
      && (Completed(Accepted(), events) >= 7 ==> s.phase.Done?)
      && (s.phase.Storing? ==> !s.phase.terminal.status.Pending?)
  {
    if events == [] {
    } else {
      ExactlyOneTerminalAttempt(Front(events));
    }
  }

  // Whether the history reverts.

  predicate AllPending(history: seq<Record>) {
    forall r <- history :: r.status.Pending?
  }

  /** Pending states, then possibly one terminal state, and nothing after it. */
  predicate NeverReverts(history: seq<Record>) {
    history != [] && AllPending(Front(history))
  }

  /** Some listener call that read a pending record writes only after a terminal record was stored. */
  predicate Overtaken(events: seq<Event>) {
    events != [] &&
      var s := Run(Accepted(), Front(events));
      Overtaken(Front(events))
      || (Last(events).ListenerWrites? && Last(events).call < |s.seen| && !AllPending(s.history))
  }

  /** What holds on every run: calls under way read pending records, and the store holds the last write unless it expired. */
  predicate Consistent(s: State) {
    && AllPending(s.seen) && s.history != []
    && (s.stored.Some? ==> s.stored.value == Last(s.history))
    && (s.phase.Storing? ==> !s.phase.terminal.status.Pending?)
    && (!s.phase.Done? ==> AllPending(s.history))
  }

  lemma PutStays(s: State, r: Record)
    requires Consistent(s)
    ensures NeverReverts(Put(s, r).history) <==> AllPending(s.history)
    ensures Last(Put(s, r).history) == r
    ensures AllPending(Put(s, r).history) <==> AllPending(s.history) && r.status.Pending?
  {
    assert Front(s.history + [r]) == s.history;
    assert r in s.history + [r] && forall q <- s.history :: q in s.history + [r];
  }

  lemma ChainStep(s: State, ok: bool)
    requires Consistent(s) && NeverReverts(s.history)
    ensures Consistent(Advance(s, ok)) && NeverReverts(Advance(s, ok).history)
  {
    if s.phase.Storing? {
      PutStays(s, s.phase.terminal);
    }
  }

  lemma ListenerStep(s: State, r: Record)
    requires Consistent(s) && NeverReverts(s.history) && r.status.Pending?
    ensures AllPending(s.history) ==> Consistent(Put(s, r))
    ensures NeverReverts(Put(s, r).history) <==> AllPending(s.history)
  {
    PutStays(s, r);
  }

  lemma StoredPendingIsAll(s: State)
    requires Consistent(s) && NeverReverts(s.history) && IsPending(s.stored)
    ensures AllPending(s.history)
  {
    assert s.history == Front(s.history) + [Last(s.history)];
  }

  lemma CleanStep(s: State, e: Event)
    requires Consistent(s) && NeverReverts(s.history)
    requires !(e.ListenerWrites? && e.call < |s.seen| && !AllPending(s.history))
    ensures Consistent(Next(s, e)) && NeverReverts(Next(s, e).history)
  {
    match e
    case Resolved => ChainStep(s, true);
    case Rejected => ChainStep(s, false);
    case GraphResolved(_) =>
    case Listener(update) =>
      if IsPending(s.stored) {
        StoredPendingIsAll(s);
        ListenerStep(s, Updated(s.stored.value, update));
      }
    case ListenerReads =>
    case ListenerWrites(call, update) =>
      if call < |s.seen| {
        ListenerStep(s, Updated(s.seen[call], update));
      }
    case Expired =>
  }

  lemma HistoryGrows(s: State, e: Event)
    ensures var t := Next(s, e); t.history == s.history || exists r :: t.history == s.history + [r]
  {
  }

  lemma {:induction false} HistoryStarts(events: seq<Event>)
    ensures Run(Accepted(), events).history != []
  {
    if events == [] {
    } else {
      HistoryStarts(Front(events));
      HistoryGrows(Run(Accepted(), Front(events)), Last(events));
    }
  }

  lemma {:induction false} RevertedStays(events: seq<Event>)
    requires events != [] && !NeverReverts(Run(Accepted(), Front(events)).history)
    ensures !NeverReverts(Run(Accepted(), events).history)
  {
    var s, t := Run(Accepted(), Front(events)), Run(Accepted(), events);
    HistoryGrows(s, Last(events));
    HistoryStarts(Front(events));
    var r :| r in Front(s.history) && !r.status.Pending?;
    if t.history != s.history {
      assert Front(t.history) == s.history;
      assert s.history == Front(s.history) + [Last(s.history)];
    }
  }

  /**
   * In every interleaving, each listener's read and write apart: the stored history is pending states and then at
   * most one terminal state exactly when no listener call is overtaken by the terminal write. The store then holds
   * the last of those states unless it dropped the record.
   */
  lemma {:induction false} HistoryNeverReverts(events: seq<Event>)
    ensures NeverReverts(Run(Accepted(), events).history) <==> !Overtaken(events)
    ensures !Overtaken(events) ==> Consistent(Run(Accepted(), events))
  {
    if events == [] {
      assert Front([PENDING]) == [];
    } else {
      var s, e := Run(Accepted(), Front(events)), Last(events);
      HistoryNeverReverts(Front(events));
      if Overtaken(Front(events)) {
        RevertedStays(events);
      } else if Overtaken(events) {
        ListenerStep(s, Updated(s.seen[e.call], e.update));
      } else {
        CleanStep(s, e);
      }
    }
  }

  /** Listeners that write before anything else happens are never overtaken. */
  predicate Atomic(events: seq<Event>) {
    forall e <- events :: !e.ListenerReads? && !e.ListenerWrites?
  }

  lemma {:induction false} AtomicIsNeverOvertaken(events: seq<Event>)
    requires Atomic(events)
    ensures !Overtaken(events)
  {
    if events == [] {
    } else {
      assert Last(events) in events && forall e <- Front(events) :: e in events;
      AtomicIsNeverOvertaken(Front(events));
    }
  }

  // What the terminal record says.

  /** What the graph resolved with, if that ended the chain's wait for it. */
  function Answer(events: seq<Event>): (settled: Option<Settled>) {
    if events == [] then None
    else if Last(events).GraphResolved? && Run(Accepted(), Front(events)).phase.RunningGraph? then Some(Last(events).settled)
    else Answer(Front(events))
  }

  /** Some await of the chain failed before the terminal write. */
  predicate Stumbled(events: seq<Event>) {
    events != [] &&
      var phase := Run(Accepted(), Front(events)).phase;
      Stumbled(Front(events)) || (Last(events).Rejected? && !phase.Storing? && !phase.Done?)
  }

  /** The graph answered, without an error, and nothing failed on the way to the terminal write. */
  predicate Earned(events: seq<Event>) {
    Answer(events).Some? && !Answer(events).value.error && !Stumbled(events)
  }

  /** The terminal record says `succeeded` exactly when the turn did, in every interleaving with the listeners. */
  lemma {:induction false} SuccessIffEarned(events: seq<Event>)
    ensures var s := Run(Accepted(), events);
      && (s.phase.BuildingInput? || s.phase.PatchingMode? || s.phase.RunningGraph? ==>
            Answer(events).None? && !Stumbled(events))
      && (s.phase.PersistingSession? || s.phase.ReadingUrl? ==> Answer(events) == Some(s.phase.settled) && !Stumbled(events))
      && (s.phase.ReadingUrlAfterFailure? ==> Stumbled(events))
      && (s.phase.Storing? ==> (s.phase.terminal.status.Succeeded? <==> Earned(events)))
  {
    if events == [] {
    } else {
      SuccessIffEarned(Front(events));
    }
  }

  /** A terminal write that fails costs the record its answer: whatever is stored stays, and the chain is done. */
  lemma FailedWriteKeepsTheRecord(s: State)
    requires s.phase.Storing?
    ensures var t := Next(s, Rejected);
      t.stored == s.stored && t.history == s.history && t.phase.Done? && t.terminalAttempts == s.terminalAttempts + 1
    ensures Next(s, Resolved).stored == Some(s.phase.terminal)
  {
  }

  /** The terminal record names the link the graph's answer names; a turn that stumbled has none. */
  lemma {:induction false} TerminalLinkIsTheAnswers(events: seq<Event>)
    ensures var s := Run(Accepted(), events);
      s.phase.Storing? ==>
        s.phase.terminal.identityLink == if Stumbled(events) || Answer(events).None? then None else Answer(events).value.identityLink
  {
    if events == [] {
    } else {
      TerminalLinkIsTheAnswers(Front(events));
      SuccessIffEarned(Front(events));
    }
  }

  /** A URL and a link recorded one after the other are both in the pending record, in either order. */
  lemma UpdatesDoNotDisturb(s: State, url: string, link: string)
    requires IsPending(s.stored)
    ensures var both := Some(Record(Pending, Some(url), Some(link)));
      && Next(Next(s, Listener(Url(url))), Listener(LinkNeeded(link))).stored == both
      && Next(Next(s, Listener(LinkNeeded(link))), Listener(Url(url))).stored == both
  {
  }

  /** The URL an event records, given the calls under way and whether the record is pending. */
  function Records(s: State, e: Event): (url: Option<string>) {
    match e
    case Listener(Url(url)) => if IsPending(s.stored) then Some(url) else None
    case ListenerWrites(call, Url(url)) => if call < |s.seen| then Some(url) else None
    case _ => None
  }

  /** The URL last recorded, as long as the store kept the record. */
  function LastUrl(events: seq<Event>): (url: Option<string>) {
    if events == [] || Last(events).Expired? then None
    else
      var recorded := Records(Run(Accepted(), Front(events)), Last(events));
      if recorded.Some? then recorded else LastUrl(Front(events))
  }

  /** A listener call writes back the URL it read, and another one has been recorded since. */
  predicate WritesBackAnother(s: State, e: Event, recorded: Option<string>) {
    && e.ListenerWrites? && e.call < |s.seen| && e.update.LinkNeeded?
    && s.seen[e.call].remoteControlUrl != recorded
  }

  /** The URL last recorded has been written over, and none has been recorded since. */
  predicate Clobbered(events: seq<Event>) {
    if events == [] || Last(events).Expired? then false
    else
      var s, e := Run(Accepted(), Front(events)), Last(events);
      if Records(s, e).Some? then false
      else if e.ListenerWrites? && e.call < |s.seen| then WritesBackAnother(s, e, LastUrl(Front(events)))
      else Clobbered(Front(events))
  }

  /** What the chain knows of the URL: the last one recorded before it read the record, and whether that was written over. */
  datatype Known = Known(url: Option<string>, clobbered: bool)

  const NOT_READ := Known(None, false)

  /** What completing an await makes of what the chain knows. */
  function KnownNext(phase: Phase, ok: bool, current: Known, known: Known): (next: Known) {
    if ok && (phase.ReadingUrl? || phase.ReadingUrlAfterFailure?) then current
    else if !ok && !phase.Storing? && !phase.Done? then NOT_READ
    else known
  }

  function KnownUrl(events: seq<Event>): (known: Known) {
    if events == [] then NOT_READ
    else
      var before, e := Front(events), Last(events);
      if e.Resolved? || e.Rejected? then
        KnownNext(Run(Accepted(), before).phase, e.Resolved?, Known(LastUrl(before), Clobbered(before)), KnownUrl(before))
      else KnownUrl(before)
  }

  predicate UrlsKept(s: State, current: Known, known: Known) {
    && AllPending(s.seen)
    && (!s.phase.Done? ==>
          (StoredUrl(s) == current.url <==> !current.clobbered) && (s.stored.Some? ==> IsPending(s.stored)))
    && (s.phase.Storing? ==> (s.phase.terminal.remoteControlUrl == known.url <==> !known.clobbered))
    && (!s.phase.Storing? && !s.phase.Done? ==> known == NOT_READ)
  }

  lemma ChainKeepsUrls(s: State, ok: bool, current: Known, known: Known)
    requires UrlsKept(s, current, known)
    ensures UrlsKept(Advance(s, ok), current, KnownNext(s.phase, ok, current, known))
  {
  }

  /** What an event of the listeners or the store makes of the URL last recorded. */
  function CurrentNext(s: State, e: Event, current: Known): (next: Known) {
    if e.Expired? then NOT_READ
    else if Records(s, e).Some? then Known(Records(s, e), false)
    else if e.ListenerWrites? && e.call < |s.seen| then Known(current.url, WritesBackAnother(s, e, current.url))
    else current
  }

  lemma ListenerKeepsUrls(s: State, e: Event, current: Known, known: Known)
    requires UrlsKept(s, current, known) && !e.Resolved? && !e.Rejected? && !e.GraphResolved?
    ensures UrlsKept(Next(s, e), CurrentNext(s, e, current), known)
  {
  }

  /**
   * In every interleaving: before the terminal write the store holds the URL last recorded, and the terminal record is
   * given the one last recorded before the chain read the record, exactly if no listener call has written back an
   * older one in between.
   */
  lemma {:induction false} RecordedUrlSurvives(events: seq<Event>)
    ensures UrlsKept(Run(Accepted(), events), Known(LastUrl(events), Clobbered(events)), KnownUrl(events))
  {
    if events == [] {
    } else {
      var before, e := Front(events), Last(events);
      var s, current, known := Run(Accepted(), before), Known(LastUrl(before), Clobbered(before)), KnownUrl(before);
      RecordedUrlSurvives(before);
      match e
      case Resolved => ChainKeepsUrls(s, true, current, known);
      case Rejected => ChainKeepsUrls(s, false, current, known);
      case GraphResolved(_) =>
      case _ => ListenerKeepsUrls(s, e, current, known);
    }
  }

  lemma {:induction false} AtomicIsNeverClobbered(events: seq<Event>)
    requires Atomic(events)
    ensures !Clobbered(events)
  {
    if events == [] {
    } else {
      assert Last(events) in events && forall e <- Front(events) :: e in events;
      AtomicIsNeverClobbered(Front(events));
    }
  }

  // A failing run.

  lemma RunNext(events: seq<Event>, e: Event)
    ensures Run(Accepted(), events + [e]) == Next(Run(Accepted(), events), e)
  {
    assert Front(events + [e]) == events;
  }

  const ANSWER := Settled(false, None)

  /** The chain runs up to its last read, and a listener reads the pending record. */
  function Reading(): (events: seq<Event>) {
    [] + [Resolved] + [Resolved] + [GraphResolved(ANSWER)] + [Resolved] + [ListenerReads]
  }

  lemma ReadingRuns()
    ensures Run(Accepted(), Reading()) == Accepted().(phase := ReadingUrl(ANSWER), seen := [PENDING])
  {
    RunNext([], Resolved);
    RunNext([] + [Resolved], Resolved);
    RunNext([] + [Resolved] + [Resolved], GraphResolved(ANSWER));
    RunNext([] + [Resolved] + [Resolved] + [GraphResolved(ANSWER)], Resolved);
    RunNext([] + [Resolved] + [Resolved] + [GraphResolved(ANSWER)] + [Resolved], ListenerReads);
  }

  /** Then the chain stores its terminal record, and the listener has not written yet. */
  function Settling(): (events: seq<Event>) {
    Reading() + [Resolved] + [Resolved]
  }

  lemma SettlingRuns()
    ensures var done := Record(Succeeded, None, None);
      Run(Accepted(), Settling()) == State(Done, Some(done), 1, [PENDING, done], [PENDING])
  {
    ReadingRuns();
    RunNext(Reading(), Resolved);
    var done := Record(Succeeded, None, None);
    assert Run(Accepted(), Reading() + [Resolved]) == Accepted().(phase := Storing(done), seen := [PENDING]);
    RunNext(Reading() + [Resolved], Resolved);
  }

  /** A listener call overtaken by the terminal write takes the settled record back to pending, for good. */
  lemma SplitListenerReverts(url: string)
    ensures var events := Settling() + [ListenerWrites(0, Url(url))];
      var s := Run(Accepted(), events);
      && Overtaken(events) && s.phase.Done? && IsPending(s.stored)
      && exists r <- s.history :: r.status.Succeeded?
  {
    SettlingRuns();
    RunNext(Settling(), ListenerWrites(0, Url(url)));
    var before, s := Run(Accepted(), Settling()), Run(Accepted(), Settling() + [ListenerWrites(0, Url(url))]);
    assert Front(Settling() + [ListenerWrites(0, Url(url))]) == Settling();
    assert before.history[1] in before.history && s.history[1] in s.history;
  }
}
