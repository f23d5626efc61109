# Verified models of the agent orchestrator and the Claude Code agent

Dafny models of the parts of the repository whose correctness depends on whole runs: the wait for a Remote Control
session, the conversation-session and invocation records, the credential write-back watcher, the continuation token that
crosses two programs, and the incremental text processing at their edges. `dafny verify dfyconfig.toml` checks
everything.

## How the models are built

Each part has a specification written as functions over values, a class or a method with the loop of the source that is
proved to compute it, and theorems about the specification for every input, run or interleaving.

| part | specification and code | theorems |
|---|---|---|
| Remote Control wait | `RemoteControl` (`Wait`, `RunTurn`), `SessionListing`, `Transcript` | `RemoteControlClocks`, `RemoteControlOutput`, `RemoteControlVerdicts` |
| session record | `Sessions` (`InvokeServer`), `SessionRuns` | `SessionInvariants`, `SessionFields`, `SessionTools` |
| invocation record | `Invocations` (`Invocation`) | same module |
| credential write-back | `Writeback` (`Watcher`) | same module |
| continuation tokens | `Continuation`, `Marker` | same modules |
| stdout line buffer | `LineBuffer` (`Reader`, `ReadOutput`) | same module |
| duplicate-key scanner | `DuplicateKeys` | same module |
| streamed chat turn | `Streaming` (`Stream`, `Respond`), `SseClient` | same modules |

`Text`, `WordSplit` and `Json` hold the shared vocabulary. Where a heavy parser meets a state machine, the machine works
on a digest of what was read (`RemoteControl.Glimpse`, `DuplicateKeys.Line`, `SseClient.Chunk`) and the digest is a
function of the raw input (`GlimpseOf`, `Read`, `Parsed`).

## Assumptions

- `JSON.parse` is an arbitrary partial function. Where a growing transcript matters, one fact of JSON is assumed: once a
  text reads as an object, a longer text that does reads as the same one, and so does every text in between
  (`Transcript.ObjectsEndOnce`). Streaming assumes that `JSON.stringify` writes one line that is an object and parses
  back (`SseClient.Faithful`).
- The clock of the wait loop is read once per synchronous stretch: once after the listing, once after the transcript.
  The bound `d` of the time theorems is the length of one iteration.
- Turns of one session are serial; each read-then-write of the session store is one step.
- The graph reports `readOnly` only on a read-only turn, launches runs under new ids in its own turn's mode, and names in
  its outcome only the anchored run or a run it launched this turn (`SessionInvariants.GraphAllows`). `RecordStaysSound`
  also needs that a sub-agent pause concerns the run the turn reports, or the anchored run if it reports none
  (`PauseConcernsRun`); `RecordIsSoundIff` assumes nothing of the graph.
- Strings are sequences of characters; case folding is ASCII, which is all the compared keywords can tell apart.
- A chat client shows one progress step at a time: a new step takes the place of the one before, whose own done frame
  never comes (`Streaming.Shown`). `EveryStepEnds` is stated without that reading.
- Durations and counters are natural numbers, time stamps are integers.

## What was found

Where a desired property does not hold of the code, the code is kept and a lemma gives the failing run and the exact
condition.

- A session that vanishes from the listing while its last report was `busy` is waited for without limit unless `maxWaitMs`
  is set (`VanishedBusySessionIsWaitedFor`). The give-up bound therefore starts from a last report other than `busy`
  (`QuietSessionIsGivenUp`).
- `SessionRecord.readOnly` is documented as monotonic (types.ts:134), but a writable trigger turn clears it
  (server.ts:684-690; `ReadOnlyIsNotMonotonic`), and nothing else does (`ReadOnlyIsClearedIff`). What holds is that it is
  the mode of the latest trigger turn (`ReadOnlyIsSticky`).
- `clearAgentRunAwaitingReply` drops a run's mode together with its anchor. When a re-attached turn of the other mode finds
  the reply already recorded (agent/graph.ts:2239) and the run asks a question, `persistSession` anchors the run again
  under the turn's mode (`ReattachRelabels`, in both directions). A run launched writable then passes the gate that keeps
  read-only turns from steering it (agent/graph.ts:2222), which is right whenever the label is (`GateIsRight`). The label
  is kept in exactly the turns in which no mid-turn write has dropped the anchor of a run of the other mode that the
  outcome asks to go on with (`RunModeIsKept`); without mid-turn writes no turn relabels (`WithoutWritesNeverRelabels`).
- The fields documented as mutually exclusive (types.ts:11-14, 114-115) are so in every record a turn's outcome writes,
  but a turn that marks its run and crashes leaves the run next to a completed identity link
  (`CrashAfterLinkLeavesTwoModes`). `RecordIsSoundIff` says for every sequence of events when the record is sound; without mid-turn writes it
  always is (`OutcomesAndPatchesStaySound`).
- `/invoke` does not forward `approvalPending` and `approvalWaiting`, so a tool-approval pause does not outlive its turn
  there (`ToolApprovalSurvivesUnlessInvoked`); the streaming facade does not forward `agentResumePending`, so a run that
  lost its channel loses its anchor (`ResumeAnchorSurvivesUnlessStreamed`).
- A listener of the invocation record awaits between its read and its write, so a settled record can return to pending
  (`SplitListenerReverts`) and a recorded URL can be written over. The record never returns to pending exactly if no
  listener call is overtaken by the terminal write (`HistoryNeverReverts`), and the URL survives exactly if none has
  written back an older one (`RecordedUrlSurvives`).
- A CLI rewrite between a POST's read and the re-read can lose a refresh (`RewriteLosesRefresh`), and so can a refused
  POST that was applied (`AppliedRefusalLosesRefresh`). `NoLostRefresh` gives the exact condition for both answers of
  `stop`; runs without either meet it (`CalmRunsAreInStep`).
- An empty continuation token forgets its entry, so the next call resolves to the bare tool id
  (`EmptyTokenForgetsKey`); `KeyIsStable` says exactly when a tool's key stays, and `SessionKeyIsStable` lifts that to whole runs of a session.
- The duplicate-key scanner promises to skip list items, but list items open no scope: the fields of two items of one list
  at an indentation of two are reported although no map has a key twice (`ListItemsShareScope`). A report is wrong in this
  way exactly if a shallower list item stands between the line and the last declaration of its key
  (`ClashIffNoItemBetween`).
- An empty final answer leaves a blank line behind exactly when the streamed text so far does not end in white space
  (`EmptyAnswerIsHarmlessIff`).

## Model

| member | source | states |
|---|---|---|
| LineBuffer.Reader.OnData | apps/claude-code-swe-agent/src/claude-runner.ts:298-312 | after any chunk, the handled events are those of all finished lines received so far and the buffer is the unfinished rest |
| LineBuffer.Reader.OnClose | apps/claude-code-swe-agent/src/claude-runner.ts:346-356 | closing handles the unfinished rest as a line, so that every line of the output has been handled once |
| LineBuffer.ReadOutput | apps/claude-code-swe-agent/src/claude-runner.ts:298-356 | chunk independence: for every way of cutting the output, the handled events are the parse of the trimmed non-blank lines of the whole output |
| LineBuffer.LinesAreTrimmed | apps/claude-code-swe-agent/src/claude-runner.ts:302-310 | a line counts without its surrounding blanks; blank lines and lines that do not parse count for nothing |
| SessionListing.FindIsExact | apps/claude-code-swe-agent/src/claude-runner.ts:685-728 | a lookup finds nothing if and only if every id listed for the directory is excluded, and otherwise answers with a listed id that is not |
| SessionListing.PayloadShapes | apps/claude-code-swe-agent/src/claude-runner.ts:690-701 | a payload lists its own array, or the array under `sessions`, and anything else lists nothing |
| SessionListing.IdIff | apps/claude-code-swe-agent/src/claude-runner.ts:702-709 | an entry carries an id if and only if it is interactive, has that id, and the directory is a prefix of its own |
| SessionListing.StatusIsRead | apps/claude-code-swe-agent/src/claude-runner.ts:710-725 | a status is one of the three words in any case and anything else is none; failure is one of three words in either field |
| SessionListing.NoStatusIsRead | apps/claude-code-swe-agent/src/claude-runner.ts:710-725 | an entry without either field has no status and has not failed |
| SessionListing.DetailsAreRead | apps/claude-code-swe-agent/src/claude-runner.ts:719-725 | the short id and the waiting reason are the entry's own texts, an empty reason none |
| SessionListing.FindIsFirst | apps/claude-code-swe-agent/src/claude-runner.ts:702-727 | what is found is the description of the first entry that qualifies |
| SessionListing.ListInteractiveSessionIds | apps/claude-code-swe-agent/src/claude-runner.ts:735-746 | the snapshot loop ends on every payload and returns exactly the ids listed for the directory |
| SessionListing.SnapshotIsWhatLookupsCanReturn | apps/claude-code-swe-agent/src/claude-runner.ts:735-746 | an id is in the snapshot if and only if some lookup in that payload can answer with it |
| SessionListing.SnapshotExcludesOlderSessions | apps/claude-code-swe-agent/src/claude-runner.ts:887-893 | a later lookup that excludes the snapshot never answers with a session from before the run, and misses the new one only if none is listed |
| Transcript.ParseTranscript | apps/claude-code-swe-agent/src/claude-runner.ts:784-823 | the one-pass parse yields the last bridge id, the last text, the entry count, whether any entry ends the turn, and all events in order |
| Transcript.EntryLineIff | apps/claude-code-swe-agent/src/claude-runner.ts:790-799 | a line is an entry if and only if it is not blank and parses to an object or array |
| Transcript.OnlyAssistantsSpeak | apps/claude-code-swe-agent/src/claude-runner.ts:803-804 | an entry of another type than assistant adds no event and leaves the final text alone |
| Transcript.AssistantSpeaks | apps/claude-code-swe-agent/src/claude-runner.ts:803-818 | an assistant entry adds what its content blocks say, and its text, if it has any, is the final one |
| Transcript.NoBlocksNoSpeech | apps/claude-code-swe-agent/src/claude-runner.ts:803-805 | an entry without a list of content blocks adds nothing |
| Transcript.TextBlockSays | apps/claude-code-swe-agent/src/claude-runner.ts:810-812 | a text block is narrated word for word and is part of the text, unless it is empty |
| Transcript.ToolBlockRuns | apps/claude-code-swe-agent/src/claude-runner.ts:813-815 | a tool call is narrated as running that tool and is no part of the text |
| Transcript.OtherBlocksAreSilent | apps/claude-code-swe-agent/src/claude-runner.ts:807-816 | any other block says nothing |
| Transcript.CompleteIff | apps/claude-code-swe-agent/src/claude-runner.ts:802 | the turn is complete if and only if some entry is the system's turn_duration; every entry counts once |
| Transcript.BridgeIsLast | apps/claude-code-swe-agent/src/claude-runner.ts:801 | the bridge id is the last one that is a text and not empty |
| Transcript.ReadsOfOneFileGrow | apps/claude-code-swe-agent/src/claude-runner.ts:790-799 | any two reads of one file of object lines, the later at least as long, are a growth, wherever either of them is torn |
| Transcript.SummaryGrows | apps/claude-code-swe-agent/src/claude-runner.ts:784-823 | the parse is monotone: a grown file keeps every event in place, never loses entries, completion or the presence of a bridge id |
| RemoteControl.Wait.OnSession | apps/claude-code-swe-agent/src/claude-runner.ts:1036-1056 | a listed session updates status, waiting clock, registration and stall clock as specified |
| RemoteControl.Wait.OnTranscript | apps/claude-code-swe-agent/src/claude-runner.ts:1058-1078 | a read moves the stall clock only on growth, tells the events not told before and reports the URL at most once |
| RemoteControl.Wait.HoldForUrl | apps/claude-code-swe-agent/src/claude-runner.ts:1107-1115 | the grace loop ends at the URL, the abort or the deadline, whichever its reads show first |
| RemoteControl.Wait.Complete | apps/claude-code-swe-agent/src/claude-runner.ts:1079-1117 | a finished turn is an auth failure or is held for its URL and then completed |
| RemoteControl.Wait.GiveUp | apps/claude-code-swe-agent/src/claude-runner.ts:1143-1193 | the four give-up checks in the source's order and with its conditions, on the state of the wait |
| RemoteControl.Wait.Assess | apps/claude-code-swe-agent/src/claude-runner.ts:1119-1210 | failure of the session, exit of the child, the give-up checks and the heartbeat, in that order |
| RemoteControl.Wait.Iterate | apps/claude-code-swe-agent/src/claude-runner.ts:1023-1213 | one iteration over raw output of the listing and raw transcripts is one step of the wait on what they digest to |
| RemoteControl.RunTurn | apps/claude-code-swe-agent/src/claude-runner.ts:1022-1217 | the whole poll loop emits and returns what the specification of the wait says for those observations |
| RemoteControlClocks.StateIsHistory | apps/claude-code-swe-agent/src/claude-runner.ts:980-999 | on every run the loop's clocks are readings of the history alone: last progress, last status, start of the unbroken waiting run, longest transcript, registration |
| RemoteControlClocks.WhileWaiting | apps/claude-code-swe-agent/src/claude-runner.ts:1143-1193 | while the wait goes on, at every past decision no bound, the absolute cap included, had been reached by the history as it then was |
| RemoteControlClocks.GiveUpBound | apps/claude-code-swe-agent/src/claude-runner.ts:1036-1066 | once registered, every decision comes within max(idleTimeoutMs, idleStatusGraceMs) + waitingTimeoutMs + 2d of the last sign of work, however the status flips |
| RemoteControlClocks.StartupBound | apps/claude-code-swe-agent/src/claude-runner.ts:1143-1155 | before registration every decision comes within startupTimeoutMs + d of the start |
| RemoteControlClocks.QuietSessionIsGivenUp | apps/claude-code-swe-agent/src/claude-runner.ts:1157-1183 | a registered session whose transcript stops growing and that is never again reported busy ends the wait within that bound |
| RemoteControlClocks.WorkIsProgress | apps/claude-code-swe-agent/src/claude-runner.ts:1045-1066 | if no poll made while the last report is busy misses the session, the last sign of work is the last progress, exactly for one clock reading an iteration and within d for two |
| RemoteControlClocks.SeenIsBusySeen | apps/claude-code-swe-agent/src/claude-runner.ts:1034-1056 | it is enough that every poll after the registration finds the session |
| RemoteControlClocks.GiveUpFromProgress | apps/claude-code-swe-agent/src/claude-runner.ts:1036-1183 | then, once registered, every decision comes within max(idleTimeoutMs, idleStatusGraceMs) + waitingTimeoutMs + 2d of the last progress for one clock reading, 3d for two |
| RemoteControlClocks.CapBound | apps/claude-code-swe-agent/src/claude-runner.ts:1185-1193 | with maxWaitMs every decision comes within it and d of the start, whatever the session does |
| RemoteControlClocks.PollsAreBounded | apps/claude-code-swe-agent/src/claude-runner.ts:1023-1213 | when an iteration takes m at least, the number of polls of a capped wait and of a wait for a quiet session is bounded |
| RemoteControlClocks.BusyIsNeverGivenUp | apps/claude-code-swe-agent/src/claude-runner.ts:1171-1182 | without maxWaitMs a session whose last report is busy is never given up on |
| RemoteControlClocks.VanishedBusySessionIsWaitedFor | apps/claude-code-swe-agent/src/claude-runner.ts:1034-1056 | a busy session that vanishes from the listing is waited for through any number of polls |
| RemoteControlClocks.IdleFailureIsJustified | apps/claude-code-swe-agent/src/claude-runner.ts:1157-1182 | an idle failure means that in the bound before it no poll said busy and no read was longer, the bound being the idle grace for a reported idle and the silence fallback for no status |
| RemoteControlClocks.WaitingFailureIsJustified | apps/claude-code-swe-agent/src/claude-runner.ts:1046-1050 | a waiting failure means unbroken waiting reports for waitingTimeoutMs, whatever the transcript did |
| RemoteControlVerdicts.EndsForItsReason | apps/claude-code-swe-agent/src/claude-runner.ts:1024-1141 | the wait ends as aborted, as a failed session or with its process gone if and only if the last observation says so, in that order of precedence, and with the listed session's id |
| RemoteControlVerdicts.CompletesIffFinished | apps/claude-code-swe-agent/src/claude-runner.ts:1079-1117 | it ends as completed or as an auth failure, or is held for its URL, if and only if the transcript is complete |
| RemoteControlVerdicts.GivesUpExactly | apps/claude-code-swe-agent/src/claude-runner.ts:1143-1193 | each of the four give-ups comes if and only if its own clock, read off the history, has run out and no check before it has fired |
| RemoteControlVerdicts.GoesOnIff | apps/claude-code-swe-agent/src/claude-runner.ts:1023-1213 | the wait goes on if and only if none of these holds |
| RemoteControlVerdicts.GiveUpReports | apps/claude-code-swe-agent/src/claude-runner.ts:1008-1020 | a give-up names the session last listed, and a silence its length and whether it was reported idle |
| RemoteControlVerdicts.ReadIff | apps/claude-code-swe-agent/src/claude-runner.ts:1034-1058 | a transcript counts if and only if the listing shows a session that is not older than the run and the file is there and not empty |
| RemoteControlVerdicts.GlimpseIsFaithful | apps/claude-code-swe-agent/src/claude-runner.ts:1028-1058 | an observation is digested as it is: abort, exit, times, and the summary of the transcript's entries |
| RemoteControlVerdicts.GraceIsRead | apps/claude-code-swe-agent/src/claude-runner.ts:1109-1114 | a read of the grace loop shows the bridge id of the transcript it finds |
| RemoteControlVerdicts.UrlNamesSession | apps/claude-code-swe-agent/src/claude-runner.ts:518-521 | a cse_ id links to the session of the same rest, any other id to itself |
| RemoteControlVerdicts.CompletedWithoutUrlWaited | apps/claude-code-swe-agent/src/claude-runner.ts:1107-1115 | a turn is completed without its URL only once the grace is over or after an abort |
| RemoteControlVerdicts.HeartbeatsBreakSilence | apps/claude-code-swe-agent/src/claude-runner.ts:1195-1210 | over every run a heartbeat comes only after a full interval without any other emit |
| RemoteControlOutput.NarratedSoFar | apps/claude-code-swe-agent/src/claude-runner.ts:1067-1075 | on every run whose reads keep their events, the narrated events are those of the last read, each once and in order |
| RemoteControlOutput.NarratedExactlyOnce | apps/claude-code-swe-agent/src/claude-runner.ts:1057-1075 | the same from raw transcripts that each extend the one before, torn last lines included |
| RemoteControlOutput.NarratedFromOneFile | apps/claude-code-swe-agent/src/claude-runner.ts:1057-1075 | the same for one transcript file read again and again while it is written, wherever the reads cut it |
| RemoteControlOutput.StartedIffNarrated | apps/claude-code-swe-agent/src/claude-runner.ts:1008-1020 | the give-up says that the turn never started if and only if nothing was narrated |
| RemoteControlOutput.FinishedTurnOutranksFailures | apps/claude-code-swe-agent/src/claude-runner.ts:1079-1127 | a finished turn ends with its last text, or as an auth failure with it, whatever the listing, the process or the clocks say |
| RemoteControlOutput.UrlExactlyOnce | apps/claude-code-swe-agent/src/claude-runner.ts:962-967 | no URL before a read of either loop shows a bridge id, exactly one from then on, that of the first such read |
| RemoteControlOutput.CompletedTurnIsHeldBriefly | apps/claude-code-swe-agent/src/claude-runner.ts:1094-1116 | a completed turn returns within urlGraceMs and one poll of the read that completed it, and at once if the URL is known |
| RemoteControlOutput.NeverSilentWhileWaiting | apps/claude-code-swe-agent/src/claude-runner.ts:946-960 | while waiting, consecutive emits are less than heartbeatMs + d apart, long busy stretches included |
| RemoteControlOutput.NeverSilent | apps/claude-code-swe-agent/src/claude-runner.ts:1195-1210 | the caller silence bound up to and including the return, with the URL grace and its last poll as the only extra terms, for a finished turn |
| Sessions.InvokeServer.BuildGraphInput | apps/agent-orchestrator/src/server.ts:469-511 | the turn's input is its trigger's mode or the session's, with the stored record |
| Sessions.InvokeServer.SetSessionReadOnly | apps/agent-orchestrator/src/server.ts:684-690 | patches the one record's mode and nothing else |
| Sessions.InvokeServer.PersistSession | apps/agent-orchestrator/src/server.ts:529-669 | replaces the one record by what the cascade says of it and leaves the others alone |
| Sessions.InvokeServer.WriteMidTurn | apps/agent-orchestrator/src/session/inflight-agent-run.ts:23-68 | marks or clears the anchor of the one record while a turn runs |
| SessionRuns.PerformTurn | apps/agent-orchestrator/src/server.ts:1081-1117 | the server's own methods, in the order of a turn, leave what the run specification says, up to a crash if there is one |
| SessionInvariants.WrittenSharesBase | apps/agent-orchestrator/src/server.ts:551-579 | every branch of the cascade carries tokens, last run and mode; nothing is written only if there is nothing to carry |
| SessionInvariants.ReadOnlyIsSticky | apps/agent-orchestrator/src/server.ts:469-499 | over every sequence of serial turns, a trigger turn runs in its own mode and any other in the latest trigger turn's, whatever branch each took and wherever it crashed |
| SessionInvariants.ReadOnlyIsClearedIff | apps/agent-orchestrator/src/server.ts:684-690 | a read-only session becomes writable if and only if a writable trigger turn starts, or its record is lost |
| SessionInvariants.ReadOnlyIsNotMonotonic | apps/agent-orchestrator/src/session/types.ts:130-146 | the failing run of the documented monotonicity |
| SessionInvariants.AnchoredIffWanted | apps/agent-orchestrator/src/server.ts:591-661 | persistSession anchors a run it does not find anchored if and only if the most urgent thing the outcome asks for is to go on with it |
| SessionInvariants.LabelStep | apps/agent-orchestrator/src/server.ts:581-589 | one turn keeps the anchored run's mode equal to its launch mode if and only if it is not the case that a mid-turn write dropped the anchor of a run of the other mode which the outcome asks to go on with |
| SessionInvariants.RunModeIsKept | apps/agent-orchestrator/src/server.ts:600-661 | over every sequence of turns the anchored run's label is its launch mode, and the last turn breaks that exactly if it relabels |
| SessionInvariants.WithoutWritesNeverRelabels | apps/agent-orchestrator/src/server.ts:581-669 | through persistSession and setSessionReadOnly alone no turn relabels |
| SessionInvariants.GateIsRight | apps/agent-orchestrator/src/agent/graph.ts:2213-2226 | with the label right, a read-only turn may answer a run's question if and only if the run was launched read-only |
| SessionInvariants.ReattachRelabels | apps/agent-orchestrator/src/session/inflight-agent-run.ts:58-68 | the failing run in both directions: a run re-anchored under the other mode after a mid-turn clear, a writable one then passing the gate as read-only |
| SessionInvariants.WriteIsSound | apps/agent-orchestrator/src/server.ts:591-667 | whatever record it finds, a write holds at most one resume mode, consistent in itself, if and only if a sub-agent pause that comes first in the outcome names the last run |
| SessionInvariants.WriteKeepsSoundIffItFits | apps/agent-orchestrator/src/session/inflight-agent-run.ts:23-68 | a mid-turn write leaves a sound record if and only if it fits the pauses it finds, whether or not the record was sound |
| SessionInvariants.LastWriteDecides | apps/agent-orchestrator/src/session/inflight-agent-run.ts:23-68 | of several mid-turn writes only the last one decides that |
| SessionInvariants.RecordIsSoundIff | apps/agent-orchestrator/src/session/types.ts:16-149 | over every sequence of turns, crashes, sweeps and losses, with nothing assumed of the graph, the record is sound if and only if the last event that touched it met its condition |
| SessionInvariants.RecordStaysSound | apps/agent-orchestrator/src/server.ts:549-669 | with every pause concerning its run, each turn that writes its outcome leaves at most one resume mode, whatever it wrote on the way and whatever it found |
| SessionInvariants.OutcomesAndPatchesStaySound | apps/agent-orchestrator/src/server.ts:549-690 | with every pause concerning its run, every record reachable through persistSession, setSessionReadOnly and the sweep holds at most one resume mode, consistent in itself |
| SessionFields.WriteStampsSubject | apps/agent-orchestrator/src/server.ts:567-568 | whatever record it finds, a write is in the name of the turn's own subject |
| SessionFields.SubjectIsStamped | apps/agent-orchestrator/src/server.ts:549-690 | over every run the record belongs to whoever last wrote an outcome to it, before that to the first mark, and to nobody if the mode patch made it |
| SessionFields.AnonymousTurnsWriteNothing | apps/agent-orchestrator/src/server.ts:549 | a turn without an identity leaves the record as it found it |
| SessionFields.LastRunIsAFold | apps/agent-orchestrator/src/server.ts:571-573 | over every run the record names the run last marked or last named by a written outcome, also once it is done |
| SessionFields.EmptyRunIsNoRun | apps/agent-orchestrator/src/server.ts:573-633 | an empty run id anchors nothing and is not the last one |
| SessionFields.PatchChangesOnlyTheMode | apps/agent-orchestrator/src/server.ts:684-690 | the mode patch changes the mode and nothing else, and a record it has to make offers nothing |
| SessionFields.SweepLeavesTheRun | apps/agent-orchestrator/src/session/inflight-agent-run.ts:95-108 | the sweep drops a sub-agent pause and leaves its run to be re-attached to, with its label, and everything else |
| SessionFields.MarkAndClear | apps/agent-orchestrator/src/session/inflight-agent-run.ts:23-68 | a mark leaves the run to be re-attached to and no skill, a clear leaves nothing of the run and the skill alone |
| SessionFields.NextTurnIsOffered | apps/agent-orchestrator/src/server.ts:1104-1117 | through every facade a turn that writes offers the next turn exactly the most urgent wish of its final state that the facade passes on |
| SessionFields.WishesAreWritten | apps/agent-orchestrator/src/server.ts:591-668 | a turn with an identity and such a wish, or a run, always writes |
| SessionInvariants.CrashAfterLinkLeavesTwoModes | apps/agent-orchestrator/src/session/inflight-agent-run.ts:23-47 | the failing run: a link pause, then a turn that marks its run and crashes |
| SessionInvariants.QuestionAfterLinkLeavesOneMode | apps/agent-orchestrator/src/server.ts:647-655 | the same turn ending with a question leaves the question alone |
| SessionInvariants.ModePatchAndSweepKeepSound | apps/agent-orchestrator/src/session/inflight-agent-run.ts:104-108 | the mode patch changes nothing about soundness, and the timeout sweep mends a record exactly if its pause was its only fault |
| SessionInvariants.MostUrgentWishIsGranted | apps/agent-orchestrator/src/server.ts:591-668 | the written record offers the next turn exactly the most urgent resumption the outcome asks for, and nothing is written only if it asks for none |
| SessionInvariants.TokensAreAFold | apps/agent-orchestrator/src/server.ts:551-563 | after any sequence of turns each stored token is the last one extracted for its tool or agent, absent if that was empty |
| SessionTools.TurnMovesToolTokens | apps/agent-orchestrator/src/server.ts:551-557 | only what a persisted turn extracted moves the stored tool tokens, whichever branch it took and whatever it wrote on the way |
| SessionTools.ToolTokensAreCalls | apps/agent-orchestrator/src/agent/graph.ts:2821-2825 | over every run the record's tool tokens are the tool calls made, each key resolved against the tokens its turn was given |
| SessionTools.SessionKeyIsStable | apps/agent-orchestrator/src/continuation.ts:38-79 | once the session holds exactly one entry of a tool, over every later run its calls naming no instance resolve to that key if and only if the key is the bare id or none of them but the last returned an empty token |
| SessionInvariants.ToolApprovalSurvivesUnlessInvoked | apps/agent-orchestrator/src/server.ts:1104-1117 | remark: a tool-approval pause reaches the next turn if and only if the turn did not come through /invoke |
| SessionInvariants.ResumeAnchorSurvivesUnlessStreamed | apps/agent-orchestrator/src/server.ts:1584-1599 | the anchor of a run whose channel was lost reaches the next turn if and only if the turn was not streamed |
| Invocations.Invocation.OnAwaited | apps/agent-orchestrator/src/server.ts:1081-1168 | each completed or failed await moves the chain to the await the source goes to next, through the inner or the outer catch |
| Invocations.Invocation.PersistTerminal | apps/agent-orchestrator/src/server.ts:904-913 | one attempt to store the terminal record, whose failure is swallowed |
| Invocations.Invocation.OnListenerReads | apps/agent-orchestrator/src/server.ts:1072-1074 | a listener goes on only if the record it reads is pending |
| Invocations.Invocation.OnListenerWrites | apps/agent-orchestrator/src/server.ts:1092-1098 | its write replaces whatever the store holds by then |
| Invocations.Invocation.OnUpdate | apps/agent-orchestrator/src/server.ts:1072-1100 | both halves with nothing in between change a pending record only |
| Invocations.ExactlyOneTerminalAttempt | apps/agent-orchestrator/src/server.ts:1052-1168 | for every combination of failures and every interleaving, a done chain has attempted exactly one terminal write, one not done none, and at most seven awaits remain |
| Invocations.HistoryNeverReverts | apps/agent-orchestrator/src/server.ts:1072-1168 | in every interleaving, any number of listener calls under way, the stored history is pending states and then at most one terminal state if and only if no listener call is overtaken by the terminal write |
| Invocations.AtomicIsNeverOvertaken | apps/agent-orchestrator/src/server.ts:1072-1100 | listeners whose read and write are not separated are never overtaken |
| Invocations.SuccessIffEarned | apps/agent-orchestrator/src/server.ts:1103-1168 | the terminal record says succeeded if and only if the graph answered without an error and nothing failed on the way |
| Invocations.FailedWriteKeepsTheRecord | apps/agent-orchestrator/src/server.ts:895-913 | a terminal write that fails leaves what is stored and ends the chain all the same |
| Invocations.TerminalLinkIsTheAnswers | apps/agent-orchestrator/src/server.ts:1132-1145 | the terminal record names the link of the graph's answer, and none for a turn that failed on the way |
| Invocations.UpdatesDoNotDisturb | apps/agent-orchestrator/src/server.ts:1072-1100 | a URL and a link recorded one after the other are both in the record, in either order |
| Invocations.RecordedUrlSurvives | apps/agent-orchestrator/src/server.ts:1118-1127 | in every interleaving the terminal record is given the URL last recorded before the chain read the record if and only if no listener call has written back an older one in between |
| Invocations.AtomicIsNeverClobbered | apps/agent-orchestrator/src/server.ts:1072-1100 | listeners whose read and write are not separated never write back an older URL |
| Invocations.SplitListenerReverts | apps/agent-orchestrator/src/server.ts:1072-1077 | the failing run: a listener call overtaken by the terminal write takes the record back to pending |
| Writeback.Watcher.OnRead | apps/claude-code-swe-agent/src/credentialsWriteback.ts:85-121 | what a read of the file leads to: unreadable, unchanged, malformed, or exactly that content sent |
| Writeback.Watcher.OnReread | apps/claude-code-swe-agent/src/credentialsWriteback.ts:196-215 | after a confirmed store the file is read again and remembered |
| Writeback.Watcher.OnStop | apps/claude-code-swe-agent/src/credentialsWriteback.ts:236-263 | stop ends the timer, waits for a tick in flight and starts the flush |
| Writeback.WatcherSafety | apps/claude-code-swe-agent/src/credentialsWriteback.ts:182-265 | in every interleaving at most one POST is in flight, nothing malformed is sent, and lastPersisted moves only when the gateway confirmed a body it still holds |
| Writeback.NoLostRefresh | apps/claude-code-swe-agent/src/credentialsWriteback.ts:160-265 | in every interleaving, when stop returns unchanged the gateway holds, up to trim, what the file last read as if and only if the last re-read or applied refusal was in step; when it returns stored, if and only if the last re-read was |
| Writeback.FlushTriesExactly | apps/claude-code-swe-agent/src/credentialsWriteback.ts:248-263 | on every run stop answers failed or malformed only after exactly flushAttempts reads of the file, and any other answer after at least one and at most that many |
| Writeback.StopAnswersTruly | apps/claude-code-swe-agent/src/credentialsWriteback.ts:236-263 | each answer of stop comes from the event and the file that call for it |
| Writeback.TickSendsRefresh | apps/claude-code-swe-agent/src/credentialsWriteback.ts:217-233 | a running timer sends a refresh on its next tick when no attempt is under way; confirmed it is remembered, refused the next tick tries the same again |
| Writeback.FlushSendsRefresh | apps/claude-code-swe-agent/src/credentialsWriteback.ts:248-255 | the flush sends a refresh; confirmed, stop returns stored, refused, it goes on while attempts are left |
| Writeback.CalmRunsAreInStep | apps/claude-code-swe-agent/src/credentialsWriteback.ts:196-215 | a run without a rewrite inside an attempt and without an applied refusal is in step |
| Writeback.StoreIsRememberedIffUnchanged | apps/claude-code-swe-agent/src/credentialsWriteback.ts:198-203 | a store is remembered as what the gateway holds if and only if the file still reads as the body |
| Writeback.RewriteLosesRefresh | apps/claude-code-swe-agent/src/credentialsWriteback.ts:199-203 | the failing run: a rewrite inside an attempt ends in unchanged with the gateway behind |
| Writeback.AppliedRefusalLosesRefresh | apps/claude-code-swe-agent/src/credentialsWriteback.ts:123-129 | the failing run for a POST that was applied although it was refused |
| Writeback.NoAttemptsClaimUnchanged | apps/claude-code-swe-agent/src/credentialsWriteback.ts:248-263 | remark: with no flush attempts stop claims unchanged without a read |
| Continuation.ExtractionShape | apps/agent-orchestrator/src/continuation.ts:23-28 | an extracted token is trimmed and not empty, and the text it leaves starts with no newline |
| Continuation.BodyIff | apps/agent-orchestrator/src/continuation.ts:16 | the opening of a marker is found in every spelling the expression allows, and only there |
| Continuation.LazyEndIff | apps/agent-orchestrator/src/continuation.ts:16 | the lazy group ends somewhere if and only if a closing mark follows |
| Continuation.NoMarkerIsUntouched | apps/claude-code-swe-agent/src/continuation.ts:21-23 | a text without a leading marker gives no token and stays as it is |
| Continuation.StrippingCutsTheMarker | apps/agent-orchestrator/src/continuation.ts:23-28 | for every text the result is a suffix of it, and a proper one if and only if it has a leading marker |
| Continuation.MarkersStartWithOpen | apps/agent-orchestrator/src/continuation.ts:16 | a text that does not start with `<!--` has no marker |
| Continuation.AnySpellingIsFound | apps/agent-orchestrator/src/continuation.ts:16 | a clean token is found in every spelling of its marker: blanks or none, the keyword in any case |
| Continuation.LineEndsAreDropped | apps/agent-orchestrator/src/continuation.ts:16 | after the marker a carriage return and then all newlines are dropped, and nothing else |
| Continuation.GroupIsToken | apps/agent-orchestrator/src/continuation.ts:16 | the lazy group of the marker expression stops exactly at the end of a clean token |
| Continuation.UnwrapClean | apps/claude-code-swe-agent/src/continuation.ts:14-26 | a wrapped clean token comes back whole, with the text less its leading newlines |
| Continuation.ExtractPrepend | apps/agent-orchestrator/src/continuation.ts:16-37 | wrapping and stripping return token and text unchanged if and only if the token is trimmed and has no closing mark and the text starts with no newline |
| Continuation.RangesAreDisjointIff | apps/agent-orchestrator/src/continuation.ts:70-73 | two tools have entries of their own if and only if neither id is nested in the other |
| Continuation.KeyIsStable | apps/agent-orchestrator/src/continuation.ts:64-79 | once a tool has exactly one stored entry, all later calls of it naming no instance resolve to that key if and only if the key is the bare id or none of them but the last returns an empty token |
| Continuation.EmptyTokenForgetsKey | apps/agent-orchestrator/src/continuation.ts:64-79 | after an empty token the next call resolves to the bare tool id |
| Continuation.InstancesStayApart | apps/agent-orchestrator/src/continuation.ts:69 | an explicit instance always wins, and the instances of one tool do not touch one another's tokens |
| Marker.ParseFields | apps/claude-code-swe-agent/src/marker.ts:43-51 | the loop builds the map of the whitespace-separated key=value parts |
| Marker.KeyIsSetIff | apps/claude-code-swe-agent/src/marker.ts:43-51 | a key is present if and only if some part names it, in any case |
| Marker.LastPairWins | apps/claude-code-swe-agent/src/marker.ts:43-51 | its value is what the last part naming it, in any case, says |
| Marker.PairsAreRead | apps/claude-code-swe-agent/src/marker.ts:46-48 | key=value sets the key in lower case to everything after the first =, a part without a key sets nothing |
| Marker.Encode | apps/claude-code-swe-agent/src/marker.ts:79-84 | the encoder builds the token the theorems are about |
| Marker.DecodedIsWellFormed | apps/claude-code-swe-agent/src/marker.ts:59-76 | whatever decodes is well formed in all four fields |
| Marker.DecodedIsSafe | apps/claude-code-swe-agent/src/marker.ts:38-41 | whatever decodes holds letters, digits and ._-/ only, a pull request is digits, a repository has one slash inside |
| Marker.WellFormedIff | apps/claude-code-swe-agent/src/marker.ts:38-41 | a marker is well formed if and only if its fields hold safe characters, the repository one slash inside, the session no slash and no dot, the pull request digits |
| Marker.DecodeEncode | apps/claude-code-swe-agent/src/marker.ts:59-84 | a marker survives encoding and decoding if and only if it is well formed |
| Marker.NormalForm | apps/claude-code-swe-agent/src/marker.ts:43-84 | for every string that decodes, encoding the result decodes to the same, duplicate and mixed-case keys included |
| Marker.MarkerCrossesEpisodes | apps/claude-code-swe-agent/src/marker.ts:6-16 | encoded here, wrapped by the orchestrator, unwrapped and decoded in the next episode, every well-formed marker arrives, and the goal unchanged if and only if it starts with no newline |
| DuplicateKeys.DuplicatesAmong | e2e/specs/values-duplicate-keys.e2e.ts:52-93 | the one-pass scanner reports exactly the lines the quadratic specification calls duplicates, in order |
| DuplicateKeys.DuplicateKeys | e2e/specs/values-duplicate-keys.e2e.ts:52-93 | the same from the text of a file |
| DuplicateKeys.OneBlock | e2e/specs/values-duplicate-keys.e2e.ts:56-65 | at most one block scalar is open at a line, so one indentation is state enough |
| DuplicateKeys.KeyOfIff | e2e/specs/values-duplicate-keys.e2e.ts:68-71 | a line declares a key if and only if the key expression matches it and it is no list item |
| DuplicateKeys.KeyCharsAre | e2e/specs/values-duplicate-keys.e2e.ts:70 | letters, digits, dots, dashes, underscores and quotes make keys, their neighbours among the characters do not |
| DuplicateKeys.OpensBlockIff | e2e/specs/values-duplicate-keys.e2e.ts:73 | a line opens a block scalar if and only if the block expression matches at its end |
| DuplicateKeys.IndentIsLeadingBlanks | e2e/specs/values-duplicate-keys.e2e.ts:59 | the indentation is the number of leading blanks |
| DuplicateKeys.BlockScalarExtent | e2e/specs/values-duplicate-keys.e2e.ts:61-65 | a block scalar takes in the blank or deeper lines after its opener, up to the first that is neither |
| DuplicateKeys.DuplicatesAreSiblings | e2e/specs/values-duplicate-keys.e2e.ts:75-90 | a line is a duplicate if and only if an earlier key line with the same parent, indentation at most two, has the same key |
| DuplicateKeys.ReportedIff | e2e/specs/values-duplicate-keys.e2e.ts:52-93 | a report is in the list if and only if some line is a duplicate with that key and indentation |
| DuplicateKeys.ClashIffNoItemBetween | e2e/specs/values-duplicate-keys.e2e.ts:43-51 | among keys on lines of their own, a line repeats one of its map, list items opening maps, if and only if it is reported and no shallower list item stands between it and the last declaration of its key |
| DuplicateKeys.ListItemsShareScope | e2e/specs/values-duplicate-keys.e2e.ts:43-51 | the text of a list of two items with one field each is reported, although no map has a key twice |
| Streaming.Stream.WithSeparator | apps/agent-orchestrator/src/server.ts:1466-1471 | the flag remembers how the last non-empty piece ended, and the separator follows from it |
| Streaming.Stream.OnProgress | apps/agent-orchestrator/src/server.ts:1503-1559 | a message is prose or a step by its stage, and no prose is written while a step shows as running |
| Streaming.Stream.Finish | apps/agent-orchestrator/src/server.ts:1472-1481 | the answer is the last piece, the step shown as running gets its done frame, and the turn ends with stop and the end mark |
| Streaming.Stream.FinishWithToolCalls | apps/agent-orchestrator/src/server.ts:1491-1500 | the step shown as running gets its done frame, and the turn ends with the calls, the tool-calls reason and the end mark, no text added |
| Streaming.EveryStepEnds | apps/agent-orchestrator/src/server.ts:1450-1481 | in a finished turn every step that was started got its done frame or was superseded by a later step |
| Streaming.Respond | apps/agent-orchestrator/src/server.ts:1466-1559 | for every sequence of events the text on the wire is the pieces joined, the status frames are those of the steps, their closings and the notes, and prose, calls and end only show with no step running |
| Streaming.Junction | apps/agent-orchestrator/src/server.ts:1456-1471 | between non-empty pieces a blank line stands exactly where neither side has white space, none at the start |
| Streaming.WordsSurvive | apps/agent-orchestrator/src/server.ts:1456-1471 | no word is fused with its neighbour, lost or split: the text has exactly the words of the pieces |
| Streaming.SpokenIsNotEmpty | apps/agent-orchestrator/src/server.ts:1528-1548 | progress never adds an empty piece |
| Streaming.ProgressReads | apps/agent-orchestrator/src/server.ts:1528-1558 | agent text and link prompts read word for word, the session link inside its sentence, mechanical stages and empty messages as nothing |
| Streaming.EmptyAnswerIsHarmlessIff | apps/agent-orchestrator/src/server.ts:1466-1478 | an empty answer adds nothing if and only if the text so far is empty or ends in white space, and a blank line otherwise |
| SseClient.AssembleSseContent | e2e/support/openwebui-jwt.ts:53-68 | the loop yields the content deltas of all data lines, in order |
| SseClient.DataLineCarries | e2e/support/openwebui-jwt.ts:56-58 | a data line carries what follows without the blanks around it, an empty one and the end mark nothing |
| SseClient.AssembleSseToolCalls | e2e/support/openwebui-jwt.ts:91-116 | the loops yield the merged calls in ascending order of index |
| SseClient.SseFinishReason | e2e/support/openwebui-jwt.ts:127-142 | the loop yields the last finish reason of the data lines |
| SseClient.CallsAreIndependent | e2e/support/openwebui-jwt.ts:105-113 | each call is its own deltas' last id, last name and arguments in order, whatever arrives for others |
| SseClient.NoIndexIsZero | e2e/support/openwebui-jwt.ts:106 | a delta that names no index belongs to call 0 |
| SseClient.SameCallsIff | e2e/support/openwebui-jwt.ts:82-115 | two arrivals give the same calls if and only if the deltas of every index add up to the same |
| SseClient.InterleavingIsIrrelevant | e2e/support/openwebui-jwt.ts:82-90 | how deltas of different indices interleave does not matter |
| SseClient.ArgumentsMayBeCut | e2e/support/openwebui-jwt.ts:82-90 | cutting one delta's arguments in two anywhere, with anything before and after, does not matter |
| SseClient.BodyReadsBack | apps/agent-orchestrator/src/openai/chat-completions.ts:385-409 | for every sequence of frames, comments and the end mark included, the client reads back their text, their tool-call deltas and the reason they stop for |
| SseClient.CallsInOrder | apps/agent-orchestrator/src/openai/chat-completions.ts:349-364 | the calls of one tool-calls chunk are assembled back to the same sequence |
| SseClient.Converse | apps/agent-orchestrator/src/server.ts:1432-1500 | a whole turn from the progress callback to the client: the pieces joined, word for word what was said, exactly the tool calls asked for, and the reason that tells a turn that asked from one that answered |

## Left out

- HTTP, sockets, Kubernetes, NATS, Redis, child processes and the file system; they are inputs and abstract maps.
- The graph itself (agent/graph.ts), event triggers and skill access: only the stated assumptions about its outputs.
- Interleaved turns of one session, and the window between a session store's read and its write.
- `markSubAgentApproval`, which nothing in the orchestrator calls.
- The `draining` answer of `/invoke`, the blocking responses and the mapping of errors to status codes.
- Pause payloads beyond the identifiers the session invariants speak of (call ids, expiry times, device codes).
- The wording of heartbeats and failure messages, and the variables only they use (last activity, last waiting reason).
- The lists of auth-failure notices: `isAuthNotice` is an arbitrary predicate.
- Containment of directories in `findInteractiveSession`: as in the source, any string prefix matches.
- Bytes: a multi-byte character cut by a chunk boundary is not modelled.
- Two concurrent calls of `stop`.
- SseClient.AssembleSseToolCalls: indices are natural numbers, and a parsed frame is taken at its declared type, so a malformed `tool_calls` field, on which the source throws, is not modelled.
- DuplicateKeys.ClashIffNoItemBetween: keys written on a list item's own line are not counted, by the scanner or by this specification: `- a: 1` followed by `  a: 2` is neither reported nor a clash. Nor does either know a block scalar opened in a list item, a multi-line quoted scalar or flow collection, whose inner lines can be reported, or a document separator.
- DuplicateKeys.DuplicateKeys: a report is the pair of key and indentation, not its printed form.
- Writeback.NoLostRefresh: asks for at least one flush attempt; without one `stop` reads nothing (`NoAttemptsClaimUnchanged`).
- RemoteControlClocks.GiveUpBound: counts a decision with `busy` as last report as work; `GiveUpFromProgress` gives the bound on the stall clock when no poll misses a busy session.
- Progress that arrives after a streamed turn has ended, which the callback would still write.
