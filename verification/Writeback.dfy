/**
 * The credential write-back watcher: timer ticks, a CLI that rewrites the file at any moment, a gateway that may
 * fail, and the final flush of `stop`. Every `await` is one event, so the environment decides the interleaving.
 */
module Writeback {
  import opened Text

  datatype Outcome = Disabled | Unchanged | Unreadable | Malformed | Stored | Failed

  /** `trim` and `isJson` stand for the string trim and for `JSON.parse` not throwing; every claim holds for any two. */
  datatype Config = Config(
    enabled: bool, seeded: string, flushAttempts: nat, trim: string -> string, isJson: string -> bool)

  /** One `attemptOnce`: reading the file, POSTing what was read, re-reading the file after a confirmed store. */
  datatype Attempt = Idle | Reading | Posting(body: string) | Rereading(body: string)

  datatype Owner = Tick | Flush

  datatype Stop =
    | Running
    | Draining                   // waiting for the in-flight tick
    | Flushing(attempt: nat)
    | Pausing(attempt: nat)
    | Finished(outcome: Outcome)

  /** A refused POST may have been applied all the same, its answer lost. */
  datatype Reply = Confirmed | Refused(applied: bool)

  datatype Event =
    | Start
    | TimerFires
    | CliWrites(content: Option<string>)
    | Reads(owner: Owner)
    | Posted(owner: Owner, reply: Reply)
    | Rereads(owner: Owner)
    | StopCalled
    | StopWakes

  /** `lastRead` is what the file last read as; `sent` every body POSTed so far. */
  datatype State = State(
    file: Option<string>,
    gateway: string,
    lastPersisted: string,
    timer: bool,
    inFlight: bool,
    stopped: bool,
    tick: Attempt,
    flush: Attempt,
    stop: Stop,
    lastRead: Option<string>,
    sent: seq<string>)

  /** The run starts with the gateway holding the blob that was injected. */
  function Initial(cfg: Config, file: Option<string>): (s: State) {
    State(file, cfg.seeded, cfg.seeded, false, false, false, Idle, Idle, Running, None, [])
  }

  predicate Retryable(outcome: Outcome) {
    outcome.Failed? || outcome.Malformed?
  }

  function Of(s: State, owner: Owner): (a: Attempt) {
    if owner.Tick? then s.tick else s.flush
  }

  function Set(s: State, owner: Owner, a: Attempt): (t: State) {
    if owner.Tick? then s.(tick := a) else s.(flush := a)
  }

  /** The checks of `persistRefreshedCredentials` on what was read; None means the body is POSTed. */
  function Verdict(cfg: Config, content: Option<string>, seeded: string): (outcome: Option<Outcome>) {
    if content.None? || cfg.trim(content.value) == "" then Some(Unreadable)
    else if cfg.trim(seeded) != "" && cfg.trim(content.value) == cfg.trim(seeded) then Some(Unchanged)
    else if !cfg.isJson(content.value) then Some(Malformed)
    else None
  }

  /** An attempt is over: a tick lets the next one in, the flush returns, or tries again while it may. */
  function Concluded(cfg: Config, s: State, owner: Owner, outcome: Outcome): (t: State) {
    if owner.Tick? then s.(tick := Idle, inFlight := false)
    else if s.stop.Flushing? && Retryable(outcome) && s.stop.attempt < cfg.flushAttempts then
      s.(flush := Idle, stop := Pausing(s.stop.attempt))
    else s.(flush := Idle, stop := Finished(outcome))
  }

  function Seen(s: State): (t: State) {
    if s.file.Some? then s.(lastRead := s.file) else s
  }

  function AfterRead(cfg: Config, s: State, owner: Owner): (t: State) {
    var verdict := Verdict(cfg, s.file, s.lastPersisted);
    if verdict.Some? then Concluded(cfg, Seen(s), owner, verdict.value)
    else Set(Seen(s), owner, Posting(s.file.value)).(sent := s.sent + [s.file.value])
  }

  function AfterPost(cfg: Config, s: State, owner: Owner, body: string, reply: Reply): (t: State) {
    match reply
    case Confirmed => Set(s, owner, Rereading(body)).(gateway := body)
    case Refused(applied) => Concluded(cfg, if applied then s.(gateway := body) else s, owner, Failed)
  }

  function AfterReread(cfg: Config, s: State, owner: Owner): (t: State) {
    Concluded(cfg, if s.file.Some? then Seen(s).(lastPersisted := s.file.value) else s, owner, Stored)
  }

  /** `stop` once no tick is in flight: the first flush attempt, if any is allowed. */
  function BeginFlush(cfg: Config, s: State): (t: State) {
    if cfg.flushAttempts == 0 then s.(stopped := false, stop := Finished(Unchanged))
    else s.(stopped := false, stop := Flushing(1), flush := Reading)
  }

  function AfterStop(cfg: Config, s: State): (t: State) {
    var t := s.(timer := false);
    if !cfg.enabled then t.(stop := Finished(Disabled))
    else if t.inFlight then t.(stopped := true, stop := Draining)
    else BeginFlush(cfg, t)
  }

  function Next(cfg: Config, s: State, e: Event): (t: State) {
    match e
    case Start => if cfg.enabled && s.stop.Running? then s.(timer := true) else s
    case TimerFires => if s.timer && !s.inFlight && !s.stopped then s.(inFlight := true, tick := Reading) else s
    case CliWrites(content) => s.(file := content)
    case Reads(owner) => if Of(s, owner).Reading? then AfterRead(cfg, s, owner) else s
    case Posted(owner, reply) => if Of(s, owner).Posting? then AfterPost(cfg, s, owner, Of(s, owner).body, reply) else s
    case Rereads(owner) => if Of(s, owner).Rereading? then AfterReread(cfg, s, owner) else s
    case StopCalled => if s.stop.Running? then AfterStop(cfg, s) else s
    case StopWakes =>
      if s.stop.Draining? && !s.inFlight then BeginFlush(cfg, s)
      else if s.stop.Pausing? then s.(stop := Flushing(s.stop.attempt + 1), flush := Reading)
      else s
  }

  function Run(cfg: Config, s: State, events: seq<Event>): (t: State) {
    if events == [] then s else Next(cfg, Run(cfg, s, Front(events)), Last(events))
  }

  /** The watcher's closure, with the file and the gateway it works on. */
  class Watcher {
    const cfg: Config
    var file: Option<string>
    var gateway: string
    var lastPersisted: string
    var timer: bool
    var inFlight: bool
    var stopped: bool
    var tick: Attempt
    var flush: Attempt
    var stop: Stop
    var lastRead: Option<string>
    var sent: seq<string>

    function View(): (s: State)
      reads this
    {
      State(file, gateway, lastPersisted, timer, inFlight, stopped, tick, flush, stop, lastRead, sent)
    }

    constructor (cfg: Config, file: Option<string>)
      ensures this.cfg == cfg && View() == Initial(cfg, file)
    {
      this.cfg, this.file := cfg, file;
      gateway, lastPersisted := cfg.seeded, cfg.seeded;
      timer, inFlight, stopped := false, false, false;
      tick, flush, stop := Idle, Idle, Running;
      lastRead, sent := None, [];
    }

    method OnStart()
      modifies this
      ensures View() == Next(cfg, old(View()), Start)
    {
      if cfg.enabled && stop.Running? && !timer {
        timer := true;
      }
    }

    method OnTimer()
      modifies this
      ensures View() == Next(cfg, old(View()), TimerFires)
    {
      if timer && !(inFlight || stopped) {
        inFlight := true;
        tick := Reading;
      }
    }

    method Move(owner: Owner, a: Attempt)
      modifies this`tick, this`flush
      ensures View() == Set(old(View()), owner, a)
    {
      if owner.Tick? {
        tick := a;
      } else {
        flush := a;
      }
    }

    method Conclude(owner: Owner, outcome: Outcome)
      modifies this
      ensures View() == Concluded(cfg, old(View()), owner, outcome)
    {
      Move(owner, Idle);
      if owner.Tick? {
        inFlight := false;
      } else if stop.Flushing? && Retryable(outcome) && stop.attempt < cfg.flushAttempts {
        stop := Pausing(stop.attempt);
      } else {
        stop := Finished(outcome);
      }
    }

    /** What was read is not sent, or sent; None is an unreadable file. */
    method Weigh(owner: Owner, current: Option<string>)
      requires current == file
      modifies this
      ensures View() ==
        var verdict := Verdict(cfg, current, old(lastPersisted));
        if verdict.Some? then Concluded(cfg, old(View()), owner, verdict.value)
        else Set(old(View()), owner, Posting(current.value)).(sent := old(sent) + [current.value])
    {
      if current.None? || cfg.trim(current.value) == "" {
        Conclude(owner, Unreadable);
      } else if cfg.trim(lastPersisted) != "" && cfg.trim(current.value) == cfg.trim(lastPersisted) {
        Conclude(owner, Unchanged);
      } else if !cfg.isJson(current.value) {
        Conclude(owner, Malformed);
      } else {
        sent := sent + [current.value];
        Move(owner, Posting(current.value));
      }
    }

    method OnRead(owner: Owner)
      modifies this
      ensures View() == Next(cfg, old(View()), Reads(owner))
    {
      if !Of(View(), owner).Reading? {
        return;
      }
      var current := file;
      if current.Some? {
        lastRead := current;
      }
      Weigh(owner, current);
    }

    method OnPosted(owner: Owner, reply: Reply)
      modifies this
      ensures View() == Next(cfg, old(View()), Posted(owner, reply))
    {
      var attempt := Of(View(), owner);
      if attempt.Posting? {
        if reply.Confirmed? {
          gateway := attempt.body;
          Move(owner, Rereading(attempt.body));
        } else {
          if reply.applied {
            gateway := attempt.body;
          }
          Conclude(owner, Failed);
        }
      }
    }

    method OnReread(owner: Owner)
      modifies this
      ensures View() == Next(cfg, old(View()), Rereads(owner))
    {
      if Of(View(), owner).Rereading? {
        if file.Some? {
          lastRead := file;
          lastPersisted := file.value;
        }
        Conclude(owner, Stored);
      }
    }

    method FirstFlush()
      modifies this
      ensures View() == BeginFlush(cfg, old(View()))
    {
      stopped := false;
      if cfg.flushAttempts == 0 {
        stop := Finished(Unchanged);
      } else {
        stop := Flushing(1);
        flush := Reading;
      }
    }

    method OnStop()
      modifies this
      ensures View() == Next(cfg, old(View()), StopCalled)
    {
      if !stop.Running? {
        return;
      }
      timer := false;
      if !cfg.enabled {
        stop := Finished(Disabled);
      } else if inFlight {
        stopped := true;
        stop := Draining;
      } else {
        FirstFlush();
      }
    }

    method OnStopWakes()
      modifies this
      ensures View() == Next(cfg, old(View()), StopWakes)
    {
      if stop.Draining? && !inFlight {
        FirstFlush();
      } else if stop.Pausing? {
        stop := Flushing(stop.attempt + 1);
        flush := Reading;
      }
    }
  }

  // In every interleaving.

  predicate Busy(a: Attempt) {
    a.Posting? || a.Rereading?
  }

  /** A body on its way was sent, and once confirmed it is what the gateway holds. */
  predicate SentOk(cfg: Config, s: State, a: Attempt) {
    && (Busy(a) ==> a.body in s.sent)
    && (a.Rereading? ==> s.gateway == a.body)
  }

  /** The protocol's bookkeeping: who may be attempting what. */
  predicate Ordered(cfg: Config, s: State) {
    && s.inFlight == !s.tick.Idle?
    && (!s.flush.Idle? <==> s.stop.Flushing?)
    && (s.stop.Flushing? || s.stop.Pausing? || s.stop.Finished? ==> s.tick.Idle? || !cfg.enabled)
    && (!s.stop.Running? ==> !s.timer)
    && (!cfg.enabled ==> !s.timer && s.tick.Idle? && s.flush.Idle? && (s.stop.Running? || s.stop == Finished(Disabled)))
    && (s.stop.Flushing? || s.stop.Pausing? ==> 1 <= s.stop.attempt <= cfg.flushAttempts)
    && (s.stop.Pausing? ==> s.stop.attempt < cfg.flushAttempts)
    && (s.stop.Draining? <==> s.stopped)
    && SentOk(cfg, s, s.tick) && SentOk(cfg, s, s.flush)
    && forall body <- s.sent :: cfg.isJson(body)
  }

  lemma AttemptKeepsOrder(cfg: Config, s: State, e: Event)
    requires Ordered(cfg, s) && (e.Posted? || e.Rereads?)
    ensures Ordered(cfg, Next(cfg, s, e))
  {
  }

  lemma ReadKeepsOrder(cfg: Config, s: State, owner: Owner)
    requires Ordered(cfg, s)
    ensures Ordered(cfg, Next(cfg, s, Reads(owner)))
  {
  }

  lemma StepKeepsOrder(cfg: Config, s: State, e: Event)
    requires Ordered(cfg, s)
    ensures Ordered(cfg, Next(cfg, s, e))
  {
    if e.Posted? || e.Rereads? {
      AttemptKeepsOrder(cfg, s, e);
    } else if e.Reads? {
      ReadKeepsOrder(cfg, s, e.owner);
    }
  }

  lemma {:induction false} StaysOrdered(cfg: Config, file: Option<string>, events: seq<Event>)
    ensures Ordered(cfg, Run(cfg, Initial(cfg, file), events))
  {
    if events == [] {
    } else {
      StaysOrdered(cfg, file, Front(events));
      StepKeepsOrder(cfg, Run(cfg, Initial(cfg, file), Front(events)), Last(events));
    }
  }

  lemma StepPersists(cfg: Config, s: State, e: Event)
    requires Ordered(cfg, s)
    ensures var t := Next(cfg, s, e);
      t.lastPersisted != s.lastPersisted ==> e.Rereads? && Of(s, e.owner) == Rereading(t.gateway) && t.gateway in t.sent
  {
  }

  /**
   * In every interleaving: at most one POST is in flight, nothing malformed is ever sent, and `lastPersisted`
   * moves only when the gateway has just confirmed a body and still holds it.
   */
  lemma WatcherSafety(cfg: Config, file: Option<string>, events: seq<Event>)
    requires events != []
    ensures var before, s := Run(cfg, Initial(cfg, file), Front(events)), Run(cfg, Initial(cfg, file), events);
      && !(s.tick.Posting? && s.flush.Posting?)
      && (forall body <- s.sent :: cfg.isJson(body))
      && (s.lastPersisted != before.lastPersisted ==>
            Last(events).Rereads? && Of(before, Last(events).owner) == Rereading(s.gateway) && s.gateway in s.sent)
  {
    StaysOrdered(cfg, file, Front(events));
    StaysOrdered(cfg, file, events);
    StepPersists(cfg, Run(cfg, Initial(cfg, file), Front(events)), Last(events));
  }

  // No lost refresh.

  predicate Same(cfg: Config, a: string, b: string) {
    cfg.trim(a) == cfg.trim(b)
  }

  /** Does the gateway hold what `lastPersisted` says, the event having happened in `s`? None when it does not matter. */
  function Settles(cfg: Config, s: State, e: Event): (same: Option<bool>) {
    match e
    case Rereads(owner) =>
      if !Of(s, owner).Rereading? then None
      else Some(Same(cfg, if s.file.Some? then s.file.value else s.lastPersisted, Of(s, owner).body))
    case Posted(owner, Refused(true)) =>
      if !Of(s, owner).Posting? then None else Some(Same(cfg, s.lastPersisted, Of(s, owner).body))
    case _ => None
  }

  predicate RereadNow(cfg: Config, s: State, e: Event, otherwise: bool) {
    if e.Rereads? && Of(s, e.owner).Rereading? then
      s.file.Some? ==> Same(cfg, s.file.value, Of(s, e.owner).body)
    else otherwise
  }

  predicate InStepNow(cfg: Config, s: State, e: Event, otherwise: bool) {
    var settled := Settles(cfg, s, e);
    if settled.Some? then settled.value else otherwise
  }

  /**
   * The last re-read of the run found the body that was stored (if the file was gone, that body was the one remembered
   * before), or the last refused POST that was applied after all sent what was remembered; whichever came last.
   */
  predicate InStep(cfg: Config, s: State, events: seq<Event>) {
    events != [] ==> InStepNow(cfg, Run(cfg, s, Front(events)), Last(events), InStep(cfg, s, Front(events)))
  }

  /** The last re-read of the run found the body that was stored, or no file. */
  predicate RereadInStep(cfg: Config, s: State, events: seq<Event>) {
    events != [] ==> RereadNow(cfg, Run(cfg, s, Front(events)), Last(events), RereadInStep(cfg, s, Front(events)))
  }

  /** How the gateway, `lastPersisted` and the last read compare, given whether they are in step. */
  predicate Tallied(cfg: Config, s: State, inStep: bool, rereadInStep: bool) {
    && (!s.tick.Rereading? && !s.flush.Rereading? ==> (Same(cfg, s.gateway, s.lastPersisted) <==> inStep))
    && (Busy(s.flush) ==> s.lastRead == Some(s.flush.body))
    && (s.stop == Finished(Unchanged) ==> s.lastRead.Some? && Same(cfg, s.lastPersisted, s.lastRead.value))
    && (s.stop == Finished(Stored) ==> s.lastRead.Some? && (Same(cfg, s.gateway, s.lastRead.value) <==> rereadInStep))
  }

  lemma PostTallies(cfg: Config, s: State, owner: Owner, reply: Reply, inStep: bool, rereadInStep: bool)
    requires Ordered(cfg, s) && Tallied(cfg, s, inStep, rereadInStep)
    ensures Tallied(cfg, Next(cfg, s, Posted(owner, reply)), InStepNow(cfg, s, Posted(owner, reply), inStep), rereadInStep)
  {
  }

  lemma RereadTallies(cfg: Config, s: State, owner: Owner, inStep: bool, rereadInStep: bool)
    requires Ordered(cfg, s) && Tallied(cfg, s, inStep, rereadInStep)
    ensures var e := Rereads(owner);
      Tallied(cfg, Next(cfg, s, e), InStepNow(cfg, s, e, inStep), RereadNow(cfg, s, e, rereadInStep))
  {
  }

  lemma ReadTallies(cfg: Config, s: State, owner: Owner, inStep: bool, rereadInStep: bool)
    requires Ordered(cfg, s) && Tallied(cfg, s, inStep, rereadInStep)
    ensures Tallied(cfg, Next(cfg, s, Reads(owner)), inStep, rereadInStep)
  {
  }

  lemma StepTallies(cfg: Config, s: State, e: Event, inStep: bool, rereadInStep: bool)
    requires Ordered(cfg, s) && Tallied(cfg, s, inStep, rereadInStep) && 0 < cfg.flushAttempts
    ensures Tallied(cfg, Next(cfg, s, e), InStepNow(cfg, s, e, inStep), RereadNow(cfg, s, e, rereadInStep))
  {
    match e
    case Posted(owner, reply) => PostTallies(cfg, s, owner, reply, inStep, rereadInStep);
    case Rereads(owner) => RereadTallies(cfg, s, owner, inStep, rereadInStep);
    case Reads(owner) => ReadTallies(cfg, s, owner, inStep, rereadInStep);
    case _ =>
  }

  lemma {:induction false} RunTallies(cfg: Config, file: Option<string>, events: seq<Event>)
    requires 0 < cfg.flushAttempts
    ensures var init := Initial(cfg, file);
      Tallied(cfg, Run(cfg, init, events), InStep(cfg, init, events), RereadInStep(cfg, init, events))
  {
    if events == [] {
    } else {
      var init := Initial(cfg, file);
      RunTallies(cfg, file, Front(events));
      StaysOrdered(cfg, file, Front(events));
      StepTallies(cfg, Run(cfg, init, Front(events)), Last(events),
                  InStep(cfg, init, Front(events)), RereadInStep(cfg, init, Front(events)));
    }
  }

  /**
   * No lost refresh, exactly: in every interleaving with rewrites and applied refusals anywhere, when `stop` returns
   * unchanged, the gateway holds what the file last read as, up to surrounding blanks, if and only if the run was in
   * step; when it returns stored, if and only if the last re-read was.
   */
  lemma NoLostRefresh(cfg: Config, file: Option<string>, events: seq<Event>)
    requires 0 < cfg.flushAttempts
    ensures var init := Initial(cfg, file);
      var s := Run(cfg, init, events);
      && (s.stop == Finished(Unchanged) ==>
            s.lastRead.Some? && (Same(cfg, s.gateway, s.lastRead.value) <==> InStep(cfg, init, events)))
      && (s.stop == Finished(Stored) ==>
            s.lastRead.Some? && (Same(cfg, s.gateway, s.lastRead.value) <==> RereadInStep(cfg, init, events)))
  {
    RunTallies(cfg, file, events);
    StaysOrdered(cfg, file, events);
  }

  /** The CLI does not rewrite the file between a POST's read and the re-read, and no refused POST was applied. */
  predicate Calm(s: State, e: Event) {
    && (e.CliWrites? ==> !Busy(s.tick) && !Busy(s.flush))
    && (e.Posted? && e.reply.Refused? ==> !e.reply.applied)
  }

  predicate AllCalm(cfg: Config, s: State, events: seq<Event>) {
    events != [] ==> AllCalm(cfg, s, Front(events)) && Calm(Run(cfg, s, Front(events)), Last(events))
  }

  /** While nobody rewrites it, the file holds the body under way. */
  predicate Held(s: State) {
    && (Busy(s.tick) ==> s.file == Some(s.tick.body))
    && (Busy(s.flush) ==> s.file == Some(s.flush.body))
  }

  lemma StepHolds(cfg: Config, s: State, e: Event)
    requires Ordered(cfg, s) && Held(s) && Calm(s, e)
    ensures Held(Next(cfg, s, e))
  {
  }

  /** A calm run is in step, so it loses nothing. */
  lemma {:induction false} CalmRunsAreInStep(cfg: Config, file: Option<string>, events: seq<Event>)
    requires AllCalm(cfg, Initial(cfg, file), events)
    ensures Held(Run(cfg, Initial(cfg, file), events))
    ensures InStep(cfg, Initial(cfg, file), events) && RereadInStep(cfg, Initial(cfg, file), events)
  {
    if events == [] {
    } else {
      CalmRunsAreInStep(cfg, file, Front(events));
      StaysOrdered(cfg, file, Front(events));
      StepHolds(cfg, Run(cfg, Initial(cfg, file), Front(events)), Last(events));
    }
  }

  /** A confirmed store is remembered as what the gateway holds exactly if the file still reads as the body. */
  lemma StoreIsRememberedIffUnchanged(cfg: Config, s: State, owner: Owner)
    requires Ordered(cfg, s) && Of(s, owner).Rereading? && s.file.Some?
    ensures var t := Next(cfg, s, Rereads(owner));
      Same(cfg, t.gateway, t.lastPersisted) <==> Same(cfg, s.file.value, Of(s, owner).body)
  {
  }

  // How `stop` answers.

  /** How often the flush has read the file. */
  function FlushReads(cfg: Config, s: State, events: seq<Event>): (n: nat) {
    if events == [] then 0
    else
      FlushReads(cfg, s, Front(events))
      + (if Last(events) == Reads(Flush) && Run(cfg, s, Front(events)).flush.Reading? then 1 else 0)
  }

  /** What the number of reads says about where `stop` is. */
  predicate Counted(cfg: Config, s: State, n: nat) {
    match s.stop
    case Running => n == 0
    case Draining => n == 0
    case Flushing(attempt) => n == if s.flush.Reading? then attempt - 1 else attempt
    case Pausing(attempt) => n == attempt
    case Finished(outcome) =>
      if outcome.Failed? || outcome.Malformed? then n == cfg.flushAttempts
      else if outcome.Disabled? || cfg.flushAttempts == 0 then n == 0
      else 1 <= n <= cfg.flushAttempts
  }

  lemma StepCounts(cfg: Config, s: State, e: Event, n: nat)
    requires Ordered(cfg, s) && Counted(cfg, s, n)
    ensures Counted(cfg, Next(cfg, s, e), if e == Reads(Flush) && s.flush.Reading? then n + 1 else n)
  {
  }

  /**
   * On every run: `stop` returns failed or malformed only after exactly `flushAttempts` reads of the file, and any other
   * answer, refreshes aside, after at least one and at most that many.
   */
  lemma {:induction false} FlushTriesExactly(cfg: Config, file: Option<string>, events: seq<Event>)
    ensures Counted(cfg, Run(cfg, Initial(cfg, file), events), FlushReads(cfg, Initial(cfg, file), events))
  {
    if events == [] {
    } else {
      FlushTriesExactly(cfg, file, Front(events));
      StaysOrdered(cfg, file, Front(events));
      StepCounts(cfg, Run(cfg, Initial(cfg, file), Front(events)), Last(events),
                 FlushReads(cfg, Initial(cfg, file), Front(events)));
    }
  }

  predicate IsBlankFile(cfg: Config, file: Option<string>) {
    file.None? || cfg.trim(file.value) == ""
  }

  /** The event and the file that make `stop` return this answer. */
  predicate Answers(cfg: Config, s: State, e: Event, outcome: Outcome) {
    match outcome
    case Disabled => e.StopCalled? && !cfg.enabled
    case Unchanged =>
      cfg.flushAttempts == 0
      || (e == Reads(Flush) && !IsBlankFile(cfg, s.file) && cfg.trim(s.file.value) == cfg.trim(s.lastPersisted))
    case Unreadable => e == Reads(Flush) && IsBlankFile(cfg, s.file)
    case Malformed => e == Reads(Flush) && !IsBlankFile(cfg, s.file) && !cfg.isJson(s.file.value)
    case Stored => e == Rereads(Flush)
    case Failed => e.Posted? && e.owner.Flush? && e.reply.Refused?
  }

  /** `stop` answers what its last attempt found: each answer comes from the event and the file that call for it. */
  lemma StopAnswersTruly(cfg: Config, s: State, e: Event)
    requires Ordered(cfg, s) && !s.stop.Finished? && Next(cfg, s, e).stop.Finished?
    ensures Answers(cfg, s, e, Next(cfg, s, e).stop.outcome)
  {
  }

  /** A refresh worth sending: a file that reads as JSON and differs from what was last remembered. */
  predicate IsRefresh(cfg: Config, s: State) {
    && !IsBlankFile(cfg, s.file) && cfg.isJson(s.file.value)
    && (cfg.trim(s.lastPersisted) == "" || cfg.trim(s.file.value) != cfg.trim(s.lastPersisted))
  }

  /**
   * A running timer sends a refresh on its next tick when no attempt is under way, and a confirmed one is remembered; a
   * refused one leaves everything as it was, so that the tick after tries the same again.
   */
  lemma TickSendsRefresh(cfg: Config, s: State, reply: Reply)
    requires s.timer && !s.inFlight && !s.stopped && IsRefresh(cfg, s)
    ensures var sent := Next(cfg, Next(cfg, s, TimerFires), Reads(Tick));
      && sent.tick == Posting(s.file.value) && sent.sent == s.sent + [s.file.value] && sent.inFlight
      && (var t := Next(cfg, sent, Posted(Tick, Confirmed));
          var u := Next(cfg, t, Rereads(Tick));
          u.gateway == s.file.value && u.lastPersisted == s.file.value && !u.inFlight)
      && Next(cfg, sent, Posted(Tick, Refused(false))) ==
           s.(tick := Idle, lastRead := s.file, sent := s.sent + [s.file.value])
  {
  }

  /** The flush sends a refresh too; confirmed, `stop` returns stored, refused, it goes on while attempts are left. */
  lemma FlushSendsRefresh(cfg: Config, s: State)
    requires s.stop.Flushing? && s.flush.Reading? && IsRefresh(cfg, s)
    ensures var sent := Next(cfg, s, Reads(Flush));
      && sent.flush == Posting(s.file.value)
      && (var u := Next(cfg, Next(cfg, sent, Posted(Flush, Confirmed)), Rereads(Flush));
          u.stop == Finished(Stored) && u.gateway == s.file.value && u.lastPersisted == s.file.value)
      && (var u := Next(cfg, Next(cfg, sent, Posted(Flush, Refused(false))), StopWakes);
          if s.stop.attempt < cfg.flushAttempts then u.stop == Flushing(s.stop.attempt + 1) && u.flush.Reading?
          else u.stop == Finished(Failed))
  {
  }

  // Why each condition is needed.

  function Blob(text: string): (cfg: Config) {
    Config(true, text, 4, s => s, s => true)
  }

  lemma RunTwo(cfg: Config, s: State, a: Event, b: Event)
    ensures Run(cfg, s, [a, b]) == Next(cfg, Next(cfg, s, a), b)
  {
    assert Front([a, b]) == [a] && Front([a]) == [];
    assert Run(cfg, s, [a]) == Next(cfg, s, a);
  }

  lemma {:induction false} RunOnward(cfg: Config, s: State, before: seq<Event>, after: seq<Event>)
    ensures Run(cfg, s, before + after) == Run(cfg, Run(cfg, s, before), after)
  {
    if after == [] {
      assert before + after == before;
    } else {
      assert Front(before + after) == before + Front(after);
      RunOnward(cfg, s, before, Front(after));
    }
  }

  /** The first tick of a watcher seeded with "a" sends "b"; the timer fires again before the answer is in. */
  function Sending(): (events: seq<Event>) {
    [Start, TimerFires] + [Reads(Tick), TimerFires]
  }

  lemma AfterSending(cfg: Config)
    requires cfg == Blob("a")
    ensures Run(cfg, Initial(cfg, Some("b")), Sending()) ==
      State(Some("b"), "a", "a", true, true, false, Posting("b"), Idle, Running, Some("b"), ["b"])
  {
    var init := Initial(cfg, Some("b"));
    RunTwo(cfg, init, Start, TimerFires);
    RunTwo(cfg, Run(cfg, init, [Start, TimerFires]), Reads(Tick), TimerFires);
    RunOnward(cfg, init, [Start, TimerFires], [Reads(Tick), TimerFires]);
  }

  /** `stop` with no tick under way reads the file once and is done if it holds what was last remembered. */
  lemma StopFindsNoChange(cfg: Config, s: State)
    requires cfg.enabled && cfg.flushAttempts > 0 && s.stop.Running? && !s.inFlight
    requires s.file == Some(s.lastPersisted) && cfg.trim(s.lastPersisted) != ""
    ensures var t := Run(cfg, s, [StopCalled, Reads(Flush)]);
      t.stop == Finished(Unchanged) && t.lastRead == s.file && t.gateway == s.gateway
  {
    RunTwo(cfg, s, StopCalled, Reads(Flush));
  }

  predicate NothingRefused(events: seq<Event>) {
    forall e <- events :: e.Posted? ==> e.reply.Confirmed?
  }

  /** The CLI writes "c" while the answer is out. */
  function Rewriting(): (events: seq<Event>) {
    Sending() + [CliWrites(Some("c")), Posted(Tick, Confirmed)]
  }

  lemma AfterRewriting(cfg: Config)
    requires cfg == Blob("a")
    ensures Run(cfg, Initial(cfg, Some("b")), Rewriting()) ==
      State(Some("c"), "b", "a", true, true, false, Rereading("b"), Idle, Running, Some("b"), ["b"])
  {
    var init := Initial(cfg, Some("b"));
    AfterSending(cfg);
    RunOnward(cfg, init, Sending(), [CliWrites(Some("c")), Posted(Tick, Confirmed)]);
    RunTwo(cfg, Run(cfg, init, Sending()), CliWrites(Some("c")), Posted(Tick, Confirmed));
  }

  /** The re-read remembers "c" as stored. */
  function Forgetting(): (events: seq<Event>) {
    Rewriting() + [Rereads(Tick), TimerFires] + [Reads(Tick), Start]
  }

  lemma AfterTheReread(cfg: Config)
    requires cfg == Blob("a")
    ensures Run(cfg, Initial(cfg, Some("b")), Rewriting() + [Rereads(Tick), TimerFires]) ==
      State(Some("c"), "b", "c", true, true, false, Reading, Idle, Running, Some("c"), ["b"])
  {
    var init := Initial(cfg, Some("b"));
    AfterRewriting(cfg);
    RunOnward(cfg, init, Rewriting(), [Rereads(Tick), TimerFires]);
    RunTwo(cfg, Run(cfg, init, Rewriting()), Rereads(Tick), TimerFires);
  }

  lemma AfterForgetting(cfg: Config)
    requires cfg == Blob("a")
    ensures Run(cfg, Initial(cfg, Some("b")), Forgetting()) ==
      State(Some("c"), "b", "c", true, false, false, Idle, Idle, Running, Some("c"), ["b"])
  {
    var init := Initial(cfg, Some("b"));
    AfterTheReread(cfg);
    RunOnward(cfg, init, Rewriting() + [Rereads(Tick), TimerFires], [Reads(Tick), Start]);
    RunTwo(cfg, Run(cfg, init, Rewriting() + [Rereads(Tick), TimerFires]), Reads(Tick), Start);
  }

  lemma NothingRefusedYet(events: seq<Event>, a: Event, b: Event)
    requires NothingRefused(events) && NothingRefused([a, b])
    ensures NothingRefused(events + [a, b])
  {
  }

  lemma ForgettingRefusesNothing()
    ensures NothingRefused(Forgetting())
  {
    NothingRefusedYet([Start, TimerFires], Reads(Tick), TimerFires);
    NothingRefusedYet(Sending(), CliWrites(Some("c")), Posted(Tick, Confirmed));
    NothingRefusedYet(Rewriting(), Rereads(Tick), TimerFires);
    NothingRefusedYet(Rewriting() + [Rereads(Tick), TimerFires], Reads(Tick), Start);
  }

  /**
   * A rewrite between a POST's read and its re-read loses the refresh: the gateway is sent "b", the CLI then
   * writes "c", the re-read remembers "c" as stored, and `stop` reports unchanged while the gateway holds "b".
   */
  lemma RewriteLosesRefresh() returns (cfg: Config, events: seq<Event>)
    ensures cfg.flushAttempts > 0 && NothingRefused(events)
    ensures var s := Run(cfg, Initial(cfg, Some("b")), events);
      s.stop == Finished(Unchanged) && s.lastRead == Some("c") && s.gateway == "b" && !Same(cfg, s.gateway, "c")
  {
    cfg := Blob("a");
    events := Forgetting() + [StopCalled, Reads(Flush)];
    AfterForgetting(cfg);
    ForgettingRefusesNothing();
    NothingRefusedYet(Forgetting(), StopCalled, Reads(Flush));
    RunOnward(cfg, Initial(cfg, Some("b")), Forgetting(), [StopCalled, Reads(Flush)]);
    StopFindsNoChange(cfg, Run(cfg, Initial(cfg, Some("b")), Forgetting()));
  }

  /** The POST is refused although it was applied, and the CLI writes the old blob back. */
  function Restoring(): (events: seq<Event>) {
    Sending() + [Posted(Tick, Refused(true)), CliWrites(Some("a"))]
  }

  lemma AfterRestoring(cfg: Config)
    requires cfg == Blob("a")
    ensures Run(cfg, Initial(cfg, Some("b")), Restoring()) ==
      State(Some("a"), "b", "a", true, false, false, Idle, Idle, Running, Some("b"), ["b"])
  {
    var init := Initial(cfg, Some("b"));
    AfterSending(cfg);
    RunOnward(cfg, init, Sending(), [Posted(Tick, Refused(true)), CliWrites(Some("a"))]);
    RunTwo(cfg, Run(cfg, init, Sending()), Posted(Tick, Refused(true)), CliWrites(Some("a")));
  }

  /**
   * A refused POST that was applied after all loses it too, if the CLI writes the old blob back: `stop` reports
   * unchanged against "a" while the gateway holds "b".
   */
  lemma AppliedRefusalLosesRefresh() returns (cfg: Config, events: seq<Event>)
    ensures cfg.flushAttempts > 0
    ensures var s := Run(cfg, Initial(cfg, Some("b")), events);
      s.stop == Finished(Unchanged) && s.lastRead == Some("a") && s.gateway == "b" && !Same(cfg, s.gateway, "a")
  {
    cfg := Blob("a");
    events := Restoring() + [StopCalled, Reads(Flush)];
    AfterRestoring(cfg);
    RunOnward(cfg, Initial(cfg, Some("b")), Restoring(), [StopCalled, Reads(Flush)]);
    StopFindsNoChange(cfg, Run(cfg, Initial(cfg, Some("b")), Restoring()));
  }

  /** With no flush attempt allowed, `stop` reports unchanged without having read the file at all. */
  lemma NoAttemptsClaimUnchanged(cfg: Config, file: Option<string>)
    requires cfg.enabled && cfg.flushAttempts == 0
    ensures var s := Run(cfg, Initial(cfg, file), [StopCalled]);
      s.stop == Finished(Unchanged) && s.lastRead.None? && s.sent == []
  {
    assert Front([StopCalled]) == [];
  }
}
