# acpsub, verified

A Dafny model of acpsub, a host that runs coding agents as subagent sessions. The
model covers what the program's comments promise and no single body shows: how the
tasks that share a session interleave, how a session is launched and ended at once,
how it travels to the next daemon, how quota limits park it, and how its transcript
restores and renders it.

`dafny verify dfyconfig.toml` checks the whole project.

## How it is built

**The session record.** `SessionState.dfy` gives each critical section on a session's
shared record (`Inner`) as a function on values. `SubRuntime.dfy` is the record as the
program keeps it: a class whose methods update the fields in place, loops included,
each proved to leave exactly what the function says. `TurnMachine.dfy` interleaves the
sections: one event is one section of one task, one registry write, or one acquisition
of `prompt_send`, with the wire lock as an explicit token, the outstanding turn tasks,
steer waiters and claimed ends (each with its answer) as state, and the registry entry
beside the record.

**What holds of every run.** `AnyRun.dfy` keeps turn numbers, the steer line, the
outcome ledger and the registry's count over every run the code lets happen
(`TurnMachine.Reachable`), whatever the agent and the clients do, from a launch with
any restored turns numbered in increasing order and not past the count: a transcript
of turns 1 to m, shorter than the registry's count or longer, restores such turns
(`AnyRun.RestoredTurnsIff`). The steer theorems, the turn lookups and the durable ends
rest on it alone; the durable ends are stated where the registry counts the restored
turns, short transcripts included.

**What holds inside five assumptions.** A single finisher, a start for every running
session, that no queued prompt is lost (`TurnTheorems.DroppedWasGivenUp`), parked work
and the replay need more (`TurnMachine.Scoped`):

1. no steer is sent into a slot that a kick or a resume has reserved;
2. no steer is outstanding when a parked session resumes;
3. a folding agent starts no late steer in a reserved slot (nothing is assumed of an
   answering agent here: `SteerTheorems.AnsweredGapIsQuiet`);
4. permission requests come only while a turn is open;
5. a turn does not end while the session waits for a permission.

`BreakRuns.dfy` shows that none of them can be dropped: for each, from every plain
launch (of the kind of agent it concerns), a run inside the assumptions up to the one
step that leaves them, after which a living session drops a queued prompt in a step
that gives none up (1, 3, 5), one turn has two finishers (2), or a running session has
no start (4).

`TurnInvariant`, `TurnSteers`, `SteerEnds`, `TurnRecords`, `QueueOrder` and
`WaitInvariant` are what steps keep; `TurnTheorems`, `SteerTheorems`, `SteerAnswers`,
`Waiting` and `Handed` are the promises. `StepEffects` and `Cancels` say what a step
leaves to be read: the statuses, starts, queues and flags; `TurnData` says what a turn's
updates add up to.

**The other pieces.** `Launch.dfy` (the reservation protocol, as in-place methods and
as a state machine), `Claims.dfy` (any number of launches of one id), `Handover.dfy`
(the takeover's partition, the travelling entry, the resume), `Routing.dfy` (the reads
of `route` against the handoff's writes), `RateLimits.dfy` and `ResetClock.dfy` (gates
and the reset time), `Replay.dfy` (the transcript as a log), `Render.dfy` (section
merging).

## Where the code and its documentation part

- `awaited_elapsed` calls its internal error a broken invariant. It is reachable: a
  sender of a steer that already holds `prompt_send` when the agent dies pushes the
  steer into the dead session (`BreakRuns.WaitCanFail`); `Waiting.MeasureFailsIff`
  says exactly when. `awaited_turn`'s twin is unreachable (`Waiting.WaitAlwaysBinds`).
- Replaying a transcript does not always restore memory. `Replay.StepAgreesIff` says
  exactly which steps part them: a turn that ends with an update logged and not yet
  folded in that changes something (`Replay.SettleIff`, reached by
  `BreakRuns.EndBeforeFoldDiffers`); an update folded into another turn than it was
  logged under that changes something, as when a turn begins between the two
  (`Replay.FoldIff`, reached by `BreakRuns.UpdateBeforeTurnDiffers`); an open turn
  discarded with something logged under it (`Replay.DiscardIff`, reached by
  `BreakRuns.DiscardedTurnDiffers`); and a prompt logged after its turn was discarded
  (`BreakRuns.LatePromptDiffers`).
- `forget` promises to drop the registry entry of a launching session. The entry stands
  if and only if the launch failed before its release and registered after the forgets'
  own removals (`Launch.ForgottenEntryStandsIff`, reached by
  `Launch.FailedLaunchKeepsForgottenEntry`).
- `release_reservation` expects its reservation to be held. A launch that fails after
  its release removes the id's reservation a second time, which may be another
  launch's; that step alone breaks the expectation (`Claims.ActKeepsExclusiveIff`,
  reached by `Claims.ReleaseCanFindNone`).
- `close` leaves an open turn nothing to settle it if and only if a steer owned the
  turn (`TurnTheorems.CloseKeepsCloserIff`, reached by `BreakRuns.CloseCanStrandTurn`).
- `cancel_turn` promises to send `session/cancel`. Of a turn a steer's traffic opened it
  notes the cancel behind a prompt the turn does not have, and never sends it
  (`Cancels.SteersTurnIsNeverCancelled`).
- A queued permission request promises `needs_permission` meanwhile. A turn start that
  fails to be logged over it leaves the session failed with the request standing
  (`BreakRuns.RequestCanOutliveItsTurn`); in scope only such a start does
  (`StepEffects.RequestsAreWaitedFor`).
- `partition` promises to hand a session over or keep it. A session between going live
  and releasing its reservation is reported as both (`Handover.HandedAndKeptIff`).
- `route` forwards a session this daemon has never heard of until the old daemon's
  handoff of it lands. One the old daemon took up after the takeover whose entry the
  successor already has (say, one only registered at the takeover, then adopted over a
  connection the old daemon had accepted before it) is served locally before its resume
  settles (`Routing.NoGapIff`).
- `resume_live` clears a flag it calls stale in a section after the one that read the
  status. A park recorded between the two loses its record, and only such a clearing
  takes it (`TurnRecords.KeepsRecordedIff`); a takeover then restores the session idle,
  its queue to start at once (`Handover.HandoverConserves`).
- The registry's count is called the numbering authority. When it exceeds the turns in
  the transcript, restored turns keep the transcript's numbers, and `result` and `wait`
  answer differently for them in every later run (`Waiting.LookupsAgreeIff`,
  `Waiting.RestoredLookupsAgreeIff`).

## Model

| member | source | states |
|---|---|---|
| SubRuntime.SubRuntime.BeginTurn | src/state.rs:2091-2130 | A prompt starts if and only if its gate passes; it then takes the next number and stamps the turn; otherwise nothing changes and the refusal names the closing mark, the steer in flight or the status, or holds for a handoff |
| SubRuntime.StatusNamesTell | src/state.rs:496-508 | The status names a refusal gives tell the statuses apart |
| SubRuntime.SubRuntime.PromptOnWire | src/state.rs:2175-2190 | The open turn is marked on the wire and a cancel deferred behind its prompt is released exactly once |
| SubRuntime.SubRuntime.SendQueued | src/tools.rs:1061-1093 | A queued send starts afresh, is appended to the queue, holds for a handoff, or is refused, each under exactly its own condition |
| SubRuntime.SubRuntime.RecordEnd | src/state.rs:2346-2363 | A steer's outcome joins the list of its target turn, open or first settled of that number, unless the steer has one there; nothing else changes |
| SubRuntime.SubRuntime.SteerResolved | src/state.rs:2399-2440 | A resolved steer leaves the line, keeps or passes on the turn it owns, records its outcome, and kicks a queue held for it |
| SubRuntime.SubRuntime.SettleTurn | src/state.rs:2493-2529 | The open turn is settled under its stop reason; the queue chains, is dropped or stays as the reason, the steers and the supersession say |
| SubRuntime.SubRuntime.FoldPending | src/state.rs:2537-2549 | A folding agent's pending steers are recorded as folded in order and move to the folded line; an answering agent's stay |
| SubRuntime.SubRuntime.FailTurn | src/state.rs:2555-2568 | The open turn is settled without a stop reason, the queue is dropped, and a dead session stays exited |
| SubRuntime.SubRuntime.ParkTurn | src/state.rs:2573-2594 | The open turn is settled as rate-limited, the queue survives, and the session parks to continue |
| SubRuntime.SubRuntime.Permit | src/tools.rs:1973-2020 | The first request of that id leaves if it offers the option; unknown ids and options it does not offer are refused and change nothing |
| SubRuntime.SubRuntime.CancelTurn | src/tools.rs:1896-1917 | Only a running turn is cancelled; requests and queue are dropped, and the agent is told at once exactly when its prompt is on the wire |
| SubRuntime.SubRuntime.ReserveResumeTurn | src/ratelimit.rs:509-530 | A parked, open session's slot is reserved and names what it sends; any other is left alone |
| TurnInvariant.KeepsCore | src/state.rs:2684-2762 | Every step of a run in scope keeps increasing turn numbers with the next one for the open turn, a single finisher, and the reserved slot's shape |
| AnyRun.StepKeepsBase | src/state.rs:2383-2440 | Every step the code allows keeps turn numbers, the steer line and the outcome ledger |
| TurnTheorems.StepKeepsInv | src/state.rs:2383-2467 | Every step of a run in scope keeps the whole invariant: core, steer line, outcome ledger, parked record, queue line, quiet gap |
| TurnTheorems.OpenTurnHasOneCloser | src/state.rs:2397-2447 | An open turn has exactly one thing that will close it: its own task or claimed end, or its outstanding owning steer; on a closed session it may be stranded |
| TurnTheorems.CloseKeepsCloserIff | src/state.rs:1886-1904 | A close leaves an open turn a closer if and only if no steer owned it |
| TurnTheorems.StrandedForGood | src/state.rs:1886-1904 | A stranded turn stays open and unclosed over every run, until its agent's death discards it |
| TurnTheorems.FinishEndsItsOwnTurn | src/state.rs:2684-2762 | `finish_turn(n)` settles turn n under its own outcome and no other, or, its agent gone, nothing |
| TurnTheorems.EndSettlesUnder | src/state.rs:2493-2594 | A turn's end keeps every settled turn and appends the open one with exactly its outcome's stop reason and limit mark |
| StepEffects.EndLeaves | src/state.rs:2493-2594 | After a turn's end the status is the one its outcome names (failed, cancelled, done, parked to continue), unless it chains or the agent is dead; the queue chains under exactly its condition, is dropped or kept |
| StepEffects.OpensFresh | src/state.rs:2099-2109 | Whatever opens a turn, it is numbered next, started at that time, empty and off the wire, with no start left pending; only a steer's traffic gives it an owner |
| StepEffects.ReservesNow | src/state.rs:2425-2436 | In every run in scope a slot is reserved with its start at that time, behind an open gate |
| StepEffects.AnswerLeaves | src/state.rs:2397-2440 | A steer's answer claims its turn's end, passes the turn on, or kicks the held queue, each under exactly its condition |
| StepEffects.ReparkLeaves | src/ratelimit.rs:244-270 | A prompt that met a limit returns to the queue's front, and the session parks for its queue, with no start pending and a record of just that on its way |
| StepEffects.KickReparkLeaves | src/daemon.rs:956-976 | A kick against a limit parks the session with its queue as it was, and its record says so |
| StepEffects.ResumeConsumesItsFlag | src/ratelimit.rs:656-672 | A resume consumes the flag it fires on before it takes the wire |
| StepEffects.FailedStartLeaves | src/state.rs:2143-2160 | A start that fails to be logged leaves no open turn, and a living session failed with the reason |
| StepEffects.RefusedResumeLeaves | src/ratelimit.rs:545-556 | A refused resume leaves the session failed with the refusal, unless it is over already |
| StepEffects.SteerGate | src/tools.rs:1146-1165 | A steer may be sent into any turn in flight, one waiting for a permission too |
| StepEffects.CloseLeaves | src/state.rs:1888-1904 | A close settles a busy or parked session as cancelled, drops what waits and leaves the open turn |
| StepEffects.DeathLeaves | src/state.rs:1788-1803 | An agent's death discards the open turn and all that waits; the exit names an earlier failure |
| StepEffects.PermitLeaves | src/tools.rs:1996-2012 | The answered request leaves; the session waits on while another stands and runs when none does |
| StepEffects.WakeLeaves | src/permission.rs:97-103 | A request's own wake lets a waiting session run exactly when no request stands |
| StepEffects.RequestLeaves | src/permission.rs:76-93 | A request joins the line's end and is reported |
| StepEffects.CancelLeaves | src/tools.rs:1896-1917 | A cancel drops the requests and the queue, and is noted on a turn whose prompt is not on the wire |
| StepEffects.RequestsAreWaitedFor | src/permission.rs:66-107 | Over every run in scope a session with a request standing waits for it, unless a start failed to be logged |
| Cancels.DeferredCancelFollows | src/state.rs:2175-2190 | From its stamp on, a prompt goes on the wire with a cancel waiting behind it if and only if one came since, and none waits after |
| Cancels.SteersTurnIsNeverCancelled | src/tools.rs:1905-1917 | Over every run in scope, a cancel of a turn a steer's traffic opened waits for a prompt none has: it is never sent |
| TurnTheorems.RunningHasStart | src/tools.rs:171-203 | A running or waiting session always has an open turn or a reserved start |
| AnyRun.NumbersAreContiguous | src/state.rs:2046-2048 | In every run restored turns keep their numbers, those settled since are numbered without gaps from the count at launch, and whichever path stamps the next turn, it takes the predicted number |
| TurnTheorems.QueuedExactlyOnce | src/state.rs:2493-2529 | Every accepted prompt is in exactly one of started, holding the slot, queued, dropped; prompts start in acceptance order and before all that still wait |
| TurnTheorems.DroppedWasGivenUp | src/state.rs:2493-2568 | Over every run in scope the dropped prompts are exactly the ones a step gave up: the queue of a session that closes or dies, of a cancel, or of a turn that fails or ends cancelled; the slot's prompt of a session closed, exited or no longer live |
| QueueOrder.KeepsLine | src/state.rs:2641-2666 | No step duplicates or reorders an accepted prompt, and a step drops exactly the prompts it gives up |
| TurnTheorems.ReservedGateStands | src/state.rs:2091-2101 | In a reserved slot only the agent's exit or a close shuts the chained gate |
| TurnTheorems.ReservedPromptStarts | src/state.rs:2641-2666 | A popped prompt of a living session passes its gate and starts as the next turn |
| AnyRun.RegistryTrailsByTheRecording | src/state.rs:2770-2819 | In every run the registry counts every settled turn except at most the one whose end is being recorded, which is the last |
| AnyRun.RestoredTurnsIff | src/state.rs:1186-1207 | Restored turns are never numbered past the count, in place if and only if the registry counts no more than the transcript holds, and all counted if and only if it counts no fewer |
| TurnTheorems.ParkedIsRunnable | src/ratelimit.rs:509-530 | A session parked for its queue always has one, in memory and in its record: the resume panics are unreachable |
| TurnTheorems.ParkedIsRecorded | src/ratelimit.rs:244-305 | Over every run in scope that clears no parked session's flag, each open parked session in the registry has its record, there or on its way |
| SteerTheorems.PendingLeavesAnswered | src/state.rs:2399-2424 | But for the session's end, a steer stops pending only in the step that gives its target turn its first outcome |
| SteerTheorems.ResolutionLands | src/state.rs:2411-2424 | A resolution appends the outcome (rejected, ran-as or folded, as the answer and the ownership say) to its target turn's list, unless an earlier one stands there, and changes no other turn |
| SteerTheorems.EndFolds | src/state.rs:2537-2549 | A turn's end adds to each turn's list exactly the folds of the pending steers aimed at it, in order; an answering agent's none |
| SteerAnswers.RanAsEndsUnderItsAnswer | src/state.rs:2411-2447 | A turn recorded as the one a steer ran as settles, in every run, under the stop reason that steer's prompt was answered with |
| SteerTheorems.OneOutcomeEach | src/state.rs:2346-2363 | No steer has two outcomes, on one turn or on two, and it is on the turn it targeted |
| SteerTheorems.PendingHasNoOutcome | src/tools.rs:506-533 | A pending steer has no outcome on any turn, so a turn's steer view lists it once |
| SteerTheorems.SettledOutcomesStand | src/state.rs:2346-2363 | Over every run, settled turns stay in place and their recorded outcomes are only added to |
| SteerTheorems.SettledGainsNoSteer | src/state.rs:2287-2306 | Once a settled turn has no pending steer, no run gives it one |
| SteerTheorems.OutstandingInOrder | src/state.rs:2009-2015 | Folded then pending steers are strictly increasing, the oldest is the least, and the owner of the open turn is among them |
| TurnSteers.ResolveKeepsSteerLine | src/state.rs:2399-2410 | A resolution removes its steer from the line, keeps the order of the rest, and leaves the owner outstanding |
| SteerTheorems.AnsweredGapIsQuiet | src/handler.rs:90-105 | An answering agent has nothing outstanding in a reserved slot, so its traffic opens no turn there |
| Waiting.WaitAlwaysBinds | src/tools.rs:171-203 | Binding a wait never meets a running session without a start |
| Waiting.BindsNothingIff | src/tools.rs:171-203 | A wait binds nothing if and only if no end awaits its record and the session waits for a permission, is dead, or is settled with no steer out |
| Waiting.BindsTheTurn | src/tools.rs:171-203 | Else it binds the open turn, the one awaiting its record, the one about to start, or the newest steer's target |
| Waiting.AnswersMean | src/tools.rs:240-322 | Each answer (running, limited, paused, steers, ended) is given in exactly one case, and its time is the awaited turn's own start |
| Waiting.SettledTurnEnds | src/tools.rs:303-321 | A wait on a settled, recorded, unlimited turn of a session not parked ends once no steer is pending against it |
| Waiting.BoundWaitHolds | src/tools.rs:171-322 | The turn a wait binds to is running, parked, holding for steers or settled under a limit: the wait neither fails nor ends at once |
| Waiting.MeasureFailsIff | src/tools.rs:240-322 | Measuring a turn fails if and only if the agent died with it and a steer was pushed into the dead session |
| Waiting.ReportedEndIsDurable | src/tools.rs:246-260 | A settled turn a wait reports as ended or limited is in the registry |
| Waiting.RecordedReadIsDurable | src/state.rs:822-842 | Every settled turn a recorded read may see is in the registry |
| Waiting.EndedWaitListsNoPending | src/tools.rs:303-321 | A wait that ended on a settled turn never sees a steer pending against it again |
| Waiting.LookupsAgreeIff | src/tools.rs:1818-1829 | In every run `result`'s index arithmetic and `wait`'s search give the same turn for each number given since the launch, and for every number if and only if the restored turns are in place |
| Waiting.RestoredLookupsAgreeIff | src/tools.rs:755-764 | On a restored session the two lookups agree if and only if the registry counts no more turns than the transcript holds |
| Handed.HandedStaysShutIff | src/daemon.rs:1176-1186 | No later step on the old daemon opens a turn on a handed session, if and only if its agent is gone or owes no steer |
| Handed.AnsweredHandedStaysShut | src/daemon.rs:1176-1186 | An answering agent's handed session never opens a turn on the old daemon |
| Handover.MarksWhatItHands | src/daemon.rs:1176-1186 | The sessions a superseded daemon marks are exactly those its partition hands over: nothing running, waiting, recorded or steered, and nobody ending it |
| BreakRuns.HandedIsReachable | src/daemon.rs:1176-1186 | From every plain launch a takeover hands the session over, and no later step opens a turn on it |
| TurnBreaks.ResumeOverSteerBreaks | src/ratelimit.rs:533-556 | Resuming with a steer outstanding can give one turn number two finishers, through a failed session with the steer's turn open |
| BreakRuns.QueuedPromptCanBeLost | src/state.rs:2425-2457 | From every plain launch a run in scope reaches a kicked slot, and one steer out of scope leads to a step that drops the queued prompt of a living session without giving it up |
| BreakRuns.ResumeCanDoubleFinisher | src/ratelimit.rs:533-556 | From every plain launch a run parks with a steer outstanding, and its resume doubles a finisher |
| BreakRuns.LateFoldCanLosePrompt | src/handler.rs:90-105 | From every plain launch of a folding agent a folded steer landing in the chained gap leads to a step that drops the queued prompt of a living session without giving it up |
| BreakRuns.IdleRequestCanBreakWait | src/permission.rs:84-107 | From every plain launch a permission request outside a turn, once answered, leaves a running session without a start |
| BreakRuns.RequestCanOutliveItsTurn | src/state.rs:2143-2160 | From every plain launch, in scope, a start that fails to be logged leaves a request standing on a session that reads failed |
| BreakRuns.EndInPermissionCanLosePrompt | src/state.rs:2513-2521 | From every plain launch a turn that ends waiting for a permission leads to a step that drops the queued prompt of a living session without giving it up |
| BreakRuns.CloseCanStrandTurn | src/state.rs:1886-1901 | From every plain launch a run in scope closes over a steer's own turn, the steer answers, and the turn is stranded |
| BreakRuns.WaitCanFail | src/tools.rs:303-316 | From every plain launch a run inside the assumptions makes a wait fail with the internal error |
| Launch.Daemon.ClaimLoad | src/state.rs:1062-1087 | A load claims its id if and only if nobody claims it and it is not live but as a husk, which is handed over to be reaped; no other session is touched |
| Launch.CloseWins | src/state.rs:1271-1347 | In every interleaving, an end that lands while the reservation is held keeps the launch from succeeding and the session from staying live |
| Launch.OneTeardownEach | src/state.rs:1312-1332 | Each subagent, the launch's own and the one it found, is taken for teardown exactly once when it is live no more |
| Launch.RunningSessionStands | src/state.rs:1073-1075 | Where nobody ends it, a running session stays live and no launch takes it over |
| Launch.ForgetLeavesNoEntry | src/state.rs:1334-1346 | A forget that landed in a launch leaves no registry entry after the release and the forgets' own removals |
| Launch.ForgottenEntryStandsIff | src/tools.rs:2349-2365 | When all is over, failed launches included, a forgotten entry stands if and only if the launch failed before its release and registered after the forgets' removals |
| Launch.FailedLaunchKeepsForgottenEntry | src/state.rs:1089-1100 | A run that gets there |
| Claims.ActKeepsExclusiveIff | src/state.rs:1089-1100 | Each act of any number of launches keeps every reservation with its one launch, if and only if it is not a released launch's second removal while another holds the id |
| Claims.LiveStandsIff | src/state.rs:1298-1332 | A live subagent leaves with exactly a close or forget, a marked launch's release, or a failed first prompt; only a landing puts one in |
| Claims.LiveSessionStands | src/state.rs:1073-1075 | Over any run of launches without such an act a live session stays live under its own subagent |
| Claims.StartedLaunchIsOver | src/state.rs:1089-1100 | A launch whose first prompt started does nothing more |
| Claims.ReleasesFindTheirClaims | src/state.rs:1301-1307 | Without such a removal every release finds its reservation, over any number of launches and ends |
| Claims.ReleaseCanFindNone | src/state.rs:1301-1307 | A run in which a release finds none |
| Routing.NoGapIff | src/daemon.rs:1703-1732 | No interleaving of a call's reads with the handoff's writes routes it locally before the resume settles, if and only if the session was listed or not registered |
| Routing.ForwardsToTheOwner | src/daemon.rs:1703-1732 | In every interleaving a forwarded call goes to the daemon the session is listed under while it is, and else only to the previous one, for a session without an entry here |
| Handover.Daemon.Partition | src/daemon.rs:1169-1253 | The takeover hands over the settled live sessions with their marks, keeps the rest, and fails exactly when one to hand over is unregistered |
| Handover.EverySessionIsReported | src/daemon.rs:1176-1241 | Every live, reserved and forwarded id is reported, and a live one is handed over if and only if nothing is in flight and nobody ends it |
| Handover.HandedAndKeptIff | src/daemon.rs:1214-1222 | An id is handed over and kept at once exactly when a settled live session is still claimed or forwarded |
| Handover.HandedEntryConserves | src/daemon.rs:1187-1213 | A handed entry carries the settled count, the last outcome and the queue; the queue is hidden if and only if another parked record stands beside a session not parked |
| Handover.HandoverConserves | src/daemon.rs:847-945 | What the successor restores is the session's queue, count and status; a parked status survives if and only if the record stands, with its plan, reason and recorded time, and the session is restored idle otherwise |
| Handover.KickQueue | src/daemon.rs:956-976 | A settled session's first queued prompt starts, or parks again with the queue in order |
| Handover.ResumeOne | src/daemon.rs:840-949 | The started prompt followed by the queue is the restored queue, and the status the carried one |
| TurnRecords.KeepsSync | src/ratelimit.rs:244-305 | Every step keeps an open parked session's record, in the registry or on its way, at its plan and reason, no later than its time, and at its queue but for what was accepted since |
| TurnRecords.KeepsExact | src/ratelimit.rs:244-305 | But for a prompt queued behind the park and a limit reported while the record is on its way, every step keeps an open parked session's record word for word |
| TurnRecords.KeepsRecordedIff | src/ratelimit.rs:533-568 | A step keeps a record, in the registry or on its way, for an open parked session, if and only if it does not clear that session's flag |
| TurnRecords.EndedStaysUnscheduled | src/ratelimit.rs:292-305 | Once the record of a session being ended or handed over is gone, no run the code lets happen writes one |
| TurnRecords.DeadKeepsRecordIff | src/state.rs:2803-2812 | A step of a dead parked session keeps its record, if and only if it is no clearing of the flag or the entry |
| Handover.ParkedResumesAgree | src/ratelimit.rs:533-654 | In every run a recorded parked session's load resume sends what its live resume would and runs the same prompts after it, but for those accepted since the park |
| RateLimits.Scopes.NoteLimit | src/ratelimit.rs:327-376 | A report moves the gate only later, keeps the last reason, and leaves no parked session of its agent, live or registered, due before the gate; each moves to the gate or stays, under its own reason, and no other changes |
| RateLimits.ActiveIsLatest | src/ratelimit.rs:196-207 | Over any reports and reads, the limit in effect is the latest time ever reported, with the last reason, while it is ahead |
| RateLimits.ReportsOnlyPush | src/ratelimit.rs:332-345 | Over any reports a gate never moves earlier |
| RateLimits.RestoredLimits | src/ratelimit.rs:166-191 | Restored gates are, per scope, the latest unexpired parked time with the reason of the first entry that has it |
| ResetClock.ParseResetAt | src/ratelimit.rs:123-151 | A readable clause gives the next instant with that hour, minute and second in UTC; the day loop steps at most once |
| ResetClock.NextIsUnique | src/ratelimit.rs:133-150 | There is one such instant within a day |
| ResetClock.ClauseReadsBack | src/ratelimit.rs:123-160 | A clock printed into any message is read back, with or without seconds, whatever white space stands around it |
| ResetClock.OnlyClausesAreRead | src/ratelimit.rs:123-160 | A clock is read only between the first opening and the first closing after it, from two or three fields of bare digits |
| Replay.ReplayTranscript | src/state.rs:930-990 | The replay's loop is the fold of its records, which `ReplayedTurn` describes turn by turn |
| Replay.ReplayedTurn | src/state.rs:930-990 | The replay gives back exactly the turns the records name, each with what the updates logged under it add up to, its last stop reason, and a limit's mark if one was recorded |
| Replay.ReplayedReply | src/state.rs:956-965 | A replayed turn's reply is the text of the chunks logged under it, joined in order |
| Replay.SteersAndDropsAreLogged | src/state.rs:2306-2312 | A steer, its resolution, and a cancel or a turn's end that gives up prompts each leave a record under their turn |
| TurnData.ReplyIsChunkTexts | src/handler.rs:142-146 | A turn's reply is the text of its message chunks, joined in order |
| TurnData.LatestAreLast | src/handler.rs:147-153 | The latest call is the last one named; plan and mode are the last given |
| TurnData.CallsAreLastGiven | src/handler.rs:276-326 | The calls on record are those named, each under the title, kind, status and locations last given since it was announced |
| Replay.StepAgreesIff | src/handler.rs:90-155 | From a log and a memory that agree, a step leaves them agreeing if and only if it is harmless |
| Replay.SettleIff | src/state.rs:2684-2712 | A turn's end keeps log and memory agreeing if and only if no update seen on it is still to be folded in, or it changes nothing |
| Replay.FoldIff | src/handler.rs:126-155 | Folding an update in keeps them agreeing if and only if it was logged under the open turn, or changes nothing |
| Replay.DiscardIff | src/state.rs:2144-2160 | Discarding an open turn keeps them agreeing if and only if nothing is logged under it |
| Replay.ReplayUndoesLogging | src/state.rs:926-990 | Over every run of harmless steps the replay of the log rebuilds exactly the turns in memory |
| BreakRuns.EndBeforeFoldDiffers | src/handler.rs:90-155 | From every plain launch harmless steps reach a turn's end with an update logged under it and not folded in; that step makes the replay differ |
| BreakRuns.UpdateBeforeTurnDiffers | src/handler.rs:90-155 | From every plain launch harmless steps reach an open turn and an update logged under none; folding it in makes the replay differ |
| BreakRuns.DiscardedTurnDiffers | src/state.rs:1788-1803 | From every plain launch harmless steps reach an open turn on the log; its agent's death makes the replay differ |
| BreakRuns.LatePromptDiffers | src/state.rs:2143-2160 | From every plain launch harmless steps reach a stamped turn whose agent died; logging its prompt makes the replay differ |
| Replay.ReplayListsTurns | src/state.rs:988-990 | The list it returns is the settled turns in order, the open one last |
| Render.MergeAll | src/transcript.rs:125-162 | The pending and flush loop produces exactly the declared grouping's sections |
| Render.RenderSections | src/transcript.rs:164-168 | `from` and `tail` show exactly the sections from max(min(from, len), len - tail) |
| Render.GroupKeepsText | src/transcript.rs:196-220 | Grouping loses and reorders no chunk text, whichever kinds one reads |
| Render.RunsAreMaximal | src/transcript.rs:196-211 | Where no hidden thought stands, neighbouring runs are of different kinds |
| Render.WallsSplit | src/transcript.rs:134-142 | A hidden thought splits the grouping: no run reaches across it |
| Render.FullShowsAllText | src/transcript.rs:213-220 | With `full` the sections show the text of every chunk, whole and in order; thoughts if and only if asked for |
| Render.OtherRecordsAreSections | src/transcript.rs:153-159 | Every other record is a section of its own, in order; session state if and only if asked for |
| Render.HiddenRecords | src/transcript.rs:134-142 | A hidden thought ends the section before it; hidden session state leaves no trace |
| Render.RunSectionReadsBack | src/transcript.rs:213-220 | A merged section names its kind on its first line and shows its text, clipped to the front and a note of the count left out |

## Left out

- TurnTheorems.QueuedExactlyOnce: over runs inside the five assumptions above; `BreakRuns` shows what each keeps out. The ticket that tells equal prompts apart is the model's own.
- A transcript whose turn numbers exceed both its own length and the registry's count: the next turn's number could then be taken already.
- Waiting.EndedWaitListsNoPending: does not say that the ended answer is stable; a settled turn can read as paused while a later prompt is parked, because the code tests the parked status first.
- Handover.HandoverConserves: the status of a session whose park is still on its way to the registry, and of one a turn start of which failed to be logged, is not compared.
- Replay.ReplayUndoesLogging: over runs inside the five assumptions, with every transcript write but a prompt's succeeding; times and steer lists are not restored.
- Launch.CloseWins: one load launch of one session id, from its claim to its release; `spawn` handing out an id already being loaded is not modelled, and a prompt that fails right after the launch only in `Claims`.
- Claims.ReleasesFindTheirClaims: a live session stops its id from being claimed; reaping an exited husk is modelled for one launch only.
- Routing.NoGapIff: the old owner stays alive, the registry write succeeds, and no other call ends the session during its resume.
- Handover.Daemon.Partition: live subagents are values in the daemon's map, so two ids sharing one subagent are not represented; `handoff_one`'s later, separate scan and mark are not modelled, so "never ships an in-flight session" is stated of the takeover only.
- Handover.KickQueue: the pop and the start (or the repark with its record) are one step, and so are the restores of `resume_one` and `resume_loaded`; a resume time the registry cannot parse is not represented.
- TurnRecords.KeepsSync: a limit's report moves the parked status and the parked record of a session in one step.
- Replay.ReplayTranscript: records arrive parsed; unreadable lines and the times of turns and tool calls are not modelled.
- Render.RenderSections: records arrive parsed and a non-chunk record's section is given; `render_record`'s formats add only branch-by-branch facts.
- ResetClock.ParseResetAt: instants are unbounded, so the calendar's end is not represented; the JSON fields that mark an error as a rate limit are left to the caller.
- Two `session/update` handlers of one session at once: the model takes them one after the other.
- The hold of `begin_turn` and `send` on a session being handed off: the refusal that starts it is modelled, the waiting is not.
- The wait loop's timers and progress reports, the turn watchdog and the prune pass: they act on samples taken between awaits.
- A successor's crash: `reclaim`, leadership and the liveness connection; and a handoff report that fails, which clears the closing mark.
- The resume scheduler's sleeping and staggering; which parked session it picks is left open.
- Processes, pipes, sockets, file locks, JSON-RPC framing, terminals and file access: only their outcomes appear (a prompt resolved, a process exited, a peer replied).
- Launch options and mode checks, configuration, prose, and the command line.
