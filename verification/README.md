# Proofs about the supervisor daemon and its app-server client

This project models the multi-threaded supervisor daemon and the hand-written WebSocket client of the repository in
Dafny and proves what they are for. Run `dafny verify dfyconfig.toml` to check everything.

## What is modelled

**Handing app-servers from one daemon to another.** `Registry` holds the handlers that change a daemon's registry of
app-servers (export, adopt, unadopt, release, release status, quiesce, unquiesce), as methods of a class, each proved
against a function of the old registry. `Laws` says how the handlers act one after the other. `Protocol` puts two or
more daemons and a coordinator together: a run is any list of coordinator calls, each answered, lost on the way back or
never delivered, mixed with leases that run out, processes that exit, reapers, refreshes, stop requests, new servers and
daemons that leave. A reaper or a stop request may act in one step, or collect a proof and act on it at any later time.
`Safety` proves the invariant of all runs, `Outcomes` what an attempt may end with, `Recovery` what a further attempt
achieves and `Clearing` what waiting does; `LateReaper` and `Counterexamples` show that the hypotheses are needed.

**Cancelling against releasing a gated child.** `ExecGate` interleaves a task worker with any number of cancel requests
and shutdown passes, one step for each lock, atomic access or store operation. `ExecGateProgress` says when all of them
can still finish, and `ExecGateOutcomes` what the end of a worker or of a cancel says about the run before it.

**Registering app-servers behind the quiesce fence.** `Registration` interleaves any number of ensure, start, promote,
abort, stop, reap, task, quiesce and unquiesce handlers, one step for each critical section, spawn or stop.
`Conservation` follows every spawned process through them. `Undisturbed` and `Refusals` say what each handler achieves
when no other steps in between, and when it is refused.

**Leaving the main loop.** `AcceptLoop` is the accept loop with its flags, counters and final teardown, among client
workers that may do anything to the registries. `AcceptLoopExits` shows that the loop does end when it may.

**Ending tasks in bounded time.** `Drain` waits for a process group, `StreamJoin` joins the stream workers, `Shutdown`
stops all tasks, each as a loop against arbitrary answers of the kernel, the store and the clock (milliseconds, one
reading an iteration). `Spool` captures streams.

**The wire.** `Frames` encodes and parses WebSocket frames, `Connection` reads them from a socket, `Receive` skips to the
next text and answers pings, `Client` is the JSON-RPC client with its queue. `Waits` says what arrives at the client and
how a request's wait ends, and `Overtaken` is a client whose queue loses its order. `Sha1` and `Base64` serve the
handshake, and `Sha1Example` is a known digest. `Results` holds shared datatypes.

## Assumptions

- One coordinator runs at a time; a failed call took effect before the failure or never, and never later; each handler
  is one step on the registry; a daemon that stops answers nothing.
- Late actions are timely (`TimelyRun`): while an attempt asks for the release status, no reaper or stop request acts on
  a proof that it collected before the release, for a live server that was just released and that the attempt asks
  about. All other late actions are allowed, and with one-step reapers the assumption holds by itself
  (`AtomicReapsAreTimely`). `SplitReapsCanOrphan` and `LateActionOrphans` show that it is needed.
- Process identifiers, session keys of live servers and bootstrap identifiers are not used twice.
- A handler of the handoff reads the clock once.
- Locks are not poisoned, threads do not panic, clocks and the activity counter do not overflow.
- Store, kernel, clock and network answers are parameters or come with the event, and are otherwise arbitrary.

## Findings

- Split reaping is safe up to one race: an action on an old proof, just between a release and the status query about it,
  makes the roll-back leave a live process that nobody holds (`LateActionOrphans`); without it nothing is ever orphaned
  (`NoOrphanOnAnyRun`).
- After any number of attempts towards any daemons, with any failures, one fault-free attempt hands over every live
  session exactly if no clash on a live session is open (`FailedAttemptsAreRecoverable`). A clash is the start of a server
  for a session at the legacy daemon while the generation daemon lists the session, or at the generation daemon while the
  legacy daemon owns a running server for it; it stays open until one of the entries goes, the process dies or the
  server is handed over, and only a clash makes the daemons disagree (`AgreementIsLostByClashes`,
  `DisagreementIsAnOpenClash`). Starting a session again at the new daemon once the old process has died or was handed
  over is no clash. While one is open, an adopted entry whose unadopt was lost blocks adoption
  (`StaleAdoptionBlocksRecovery`); waiting until its lease has run out and it is reaped clears the way, without losing a
  live server (`WaitingClearsTheWay`). A first attempt cannot clash by itself (`FailedFirstAttemptIsRecoverable`).
- A shutdown pass that blocks the exec gate, cannot store the cancel and then finds the gated child gone leaves the
  worker polling for ever (`AbandonedShutdownStrands`). The gate finishes exactly from the states where this has not
  happened (`FinishesUnlessDoomed`); cancel requests alone never cause it (`RequestsAloneNeverStrand`).
- `wait_process_group_exit_with_control` is bounded if its two liveness readings of one iteration agree; if the second
  keeps contradicting the first it waits for ever (`ContradictoryReadingsWaitForever`). The contract of
  `WaitProcessGroupExit` says exactly when it goes on.
- A request that returns before the old queue is used up puts newer messages ahead of older ones (`QueueLosesOrder`).
  Whether the queue stays in order of arrival can be told before the call: it does exactly if the request takes nothing
  from it, all of it, or just the response at its head, which the queue, the number and the clock decide
  (`RequestKeepsOrderIff`, and the contract of `Request`).
- A daemon that leaves as idle has counted its timeout from the end of its last client exactly if no connection refused
  at the limit absorbed the announcement of that end after the last stamp (`IdleExitWaitsForTheLastClient`,
  `AbsorbedAnnouncementIsForgotten`).
- The branch for servers that were already handed elsewhere is unreachable while one coordinator runs at a time
  (`NeverElsewhere`).

## Model

| member | source | states |
|---|---|---|
| Registry.ValidateExports | src/daemon.rs:5234-5258 | An export list is accepted exactly if every export is well formed and no two share a session. |
| Registry.Daemon.Adopt | src/daemon.rs:4976-5047 | Adoption fails with the registry unchanged or applies to every export; it is allowed exactly when the daemon accepts work, every process is verified and every entry already there is an adopted one that matches. Each exported server is then listed as adopted, leased for the time that its export had left or for a minute, whichever is longer; an entry that was there keeps its record, a new one has the export's identity and starting time. |
| Registry.Daemon.Unadopt | src/daemon.rs:5049-5092 | Unadoption fails with the registry unchanged or takes out exactly the listed sessions, all of them adopted from that source or absent, and tells which entries it took out. |
| Registry.Daemon.Release | src/daemon.rs:5094-5174 | Release fails with the registry unchanged or turns every listed entry into one handed to the target; an entry handed over before keeps its target; each keeps its record and is leased for the time that its export had left or for a minute, whichever is longer; the cases the code calls impossible are. |
| Registry.Daemon.ReleaseStatus | src/daemon.rs:5176-5214 | The answer says for each export, in order, whether it is owned, missing or handed to whom, and changes nothing. |
| Registry.Daemon.ExportOwned | src/daemon.rs:4924-4974 | The export fails exactly for a bootstrap or an unreadable process; a successful one lists exactly the owned, running, unexpired servers and extends exactly their leases; a failed one extends leases at most. |
| Registry.Daemon.Quiesce | src/daemon.rs:3567-3595 | The call fails exactly for a stopping daemon, a wrong target, a bootstrap or a server whose process cannot be read, with that error; success means that the export is complete; the flag is up afterwards exactly if the call succeeded or it was up before. |
| Registry.Daemon.Unquiesce | src/daemon.rs:3537-3543 | The flag goes down exactly on success, which needs a running daemon and a matching target. |
| Laws.AdoptTwice | src/daemon.rs:4976-5047 | A repeated adoption is allowed and leaves what the last one alone would have left. |
| Laws.UnadoptUndoesAdopt | src/daemon.rs:5049-5092 | An adoption can be taken back exactly if the entries it found came from the same daemon; the rest of the registry is as before. |
| Laws.ReleaseTwice | src/daemon.rs:5094-5174 | A repeated release is allowed and leaves what the last one alone would have left; a release to another daemon is refused. |
| Laws.StatusTellsRelease | src/daemon.rs:5176-5214 | The status answer names the target for every export after a release, and "owned" before it. |
| Registry.AdoptedAre | src/daemon.rs:5022-5047 | The fields of an adopted entry, with its lease, from the export and the entry that was there. |
| Registry.ReleasedAre | src/daemon.rs:5143-5174 | The fields of a released entry, with its lease, from the export and the entry that was there. |
| Protocol.QuiesceDoesAsTheHandler | src/daemon.rs:3567-3595 | The quiesce call of the handoff changes the legacy daemon as the contract of the handler says. |
| Protocol.FailedQuiesceDoesAsTheHandler | src/daemon.rs:4924-4974 | So does one whose export fails after some leases were extended. |
| Registry.AdoptOneMore | src/daemon.rs:5022-5047 | Adopting the exports one by one gives the registry that adopting them all at once defines. |
| Registry.ReleaseOneMore | src/daemon.rs:5143-5174 | Releasing the exports one by one gives the registry that releasing them all at once defines. |
| Safety.NextKeepsInv | src/daemon.rs:1456-1598 | Every coordinator call with every fate, and every timely event of the world, late actions included, keeps the invariant of the handoff. |
| Safety.EveryRunIsSafe | src/daemon.rs:1456-1598 | The invariant holds after every timely run, with one-step or split reapers. |
| Safety.AtomicReapsAreTimely | src/daemon.rs:6620-6647 | With reapers that act in one step every run is timely. |
| Safety.NoOrphanOnAnyRun | src/daemon.rs:1456-1598 | On every timely run a process that is alive and was not signalled has an owned entry at the legacy daemon or an owned or adopted one at another. |
| Safety.DecisionIsSound | src/daemon.rs:1712-1762 | After a lost release the decision drawn from the status answer matches who holds the exported servers. |
| Safety.NeverElsewhere | src/daemon.rs:1456-1598 | The rollback for servers handed to some other daemon is never taken. |
| Safety.SignalsOnlyThroughHolders | src/daemon.rs:6719-6734 | No event signals a process through a handed-off entry. |
| Safety.HandedOffIsNotSignalledByLegacy | src/daemon.rs:6719-6734 | On every timely run, a process that the legacy daemon handed over is signalled only through another daemon that holds it. |
| Safety.HandedOffTargetIsFinal | src/daemon.rs:5094-5174 | As long as a handed-off entry is present its target does not change. |
| Outcomes.DecisionIsExact | src/daemon.rs:1712-1762 | In an undisturbed attempt the decision is "committed" exactly when the release took effect, "roll back" otherwise, and never "ambiguous". |
| Outcomes.AttemptEndsWell | src/daemon.rs:1477-1598 | An undisturbed attempt that ends successfully has committed all exports or rolled all of them back. |
| Outcomes.SuccessIsAllOrNothing | src/daemon.rs:1456-1598 | The same from the start, on every timely run. |
| Recovery.AdoptWorksIffCompatible | src/daemon.rs:4976-5021 | After a clean quiesce, adoption is accepted exactly if the generation daemon's entries agree with the exports. |
| Recovery.ReleaseWorksAfterAdopt | src/daemon.rs:5094-5142 | After a clean adoption, release is accepted. |
| Recovery.CleanAttemptSucceedsIff | src/daemon.rs:1456-1598 | A fault-free attempt succeeds exactly from the compatible states, and then every live, unexpired session is handed over, and leased at both daemons for as long as before and at least a minute. |
| Recovery.AgreementIsLostByClashes | src/daemon.rs:4986-5021 | One event makes the daemons disagree on a session exactly if it is a clash on it. |
| Recovery.DisagreementIsAnOpenClash | src/daemon.rs:1456-1598 | After any run, with any attempts towards any daemons and any failures, the daemons disagree on a session exactly if a clash on it is open. |
| Recovery.FailedAttemptsAreRecoverable | src/daemon.rs:1456-1598 | From the start and after any run, one fault-free attempt succeeds exactly if no clash on a live, unexpired session is open, and then hands every such session over. |
| Recovery.DisagreementMayBlock | src/daemon.rs:4986-5021 | A disagreement on a running server whose lease is out blocks adoption as soon as the lease is refreshed. |
| Clearing.WaitingClearsTheWay | src/daemon.rs:6620-6647 | From any state a run of refreshes at the legacy daemon, time and reaps of stale servers leads to a compatible one in which every live session still is, and only stale servers were signalled. |
| Clearing.WaitedAttemptSucceeds | src/daemon.rs:1456-1598 | After that waiting one fault-free attempt hands over every session that was live before it. |
| Recovery.AttemptStaysExplained | src/daemon.rs:1456-1598 | Whatever fails during one attempt, what it leaves at the generation daemon stays explained by its exports, and no clash is open. |
| Recovery.FailedFirstAttemptIsRecoverable | src/daemon.rs:1456-1598 | After a first attempt with any failures, one fault-free attempt hands over every live, unexpired session, also servers that were started again at either daemon. |
| Counterexamples.SplitReapsCanOrphan | src/daemon.rs:6620-6647 | A whole run in which a reaper acts on a proof collected before a release and orphans a process. |
| LateReaper.LateActionOrphans | src/daemon.rs:6837-6858 | From any state that keeps the invariant, an untimely action followed by the status query and the roll-back orphans the process, if no third daemon holds it and no other export is handed off. |
| Counterexamples.StaleAdoptionBlocksRecovery | src/daemon.rs:4986-5021 | A run with a clash after which no fault-free attempt succeeds. |
| ExecGate.NextKeepsInv | src/daemon.rs:2839-2909 | Every step keeps the locks, the intent count and the flags consistent. |
| ExecGate.EveryRunKeepsInv | src/daemon.rs:2839-2909 | The same on every run. |
| ExecGate.GoOnlyWhenClear | src/daemon.rs:2877-2909 | "go" is written only with no cancel intent in flight and neither flag set. |
| ExecGate.RequestedNeverRuns | src/daemon.rs:4011-4103 | Once a cancel is requested before "go", the command never runs. |
| ExecGate.SuccessfulEarlyCancelStopsTheTask | src/daemon.rs:3808-3846 | A successful cancel whose intent was counted before "go" means that the command never runs. |
| ExecGateOutcomes.ChildIsHeld | src/daemon.rs:4020-4103 | On every run, from the creation of the child to its stop or its end, and only then, the worker is at a step that deals with it. |
| ExecGateOutcomes.EndedLeavesNoChild | src/daemon.rs:4066-4153 | A worker that has ended, at whatever step it failed or was cancelled, has left no child behind and no running process on record. |
| ExecGateOutcomes.UncancelledTasksRun | src/daemon.rs:3972-4131 | A worker whose own calls succeed, and that has ended, has run its command unless a cancel was requested. |
| ExecGateOutcomes.CancelledTasksAreNotSpawned | src/daemon.rs:4011-4020 | A task whose cancel is requested before its worker has looked never gets a child. |
| ExecGateOutcomes.GoOnlyWhenStarted | src/daemon.rs:4062-4103 | "go" is written only once the store has the task as started. |
| ExecGateOutcomes.SuccessfulCancelsAreBacked | src/daemon.rs:2953-2971 | A cancel that succeeds has been stored, or was forced by a deadline, both flags are up, and it has come to signal. |
| ExecGateOutcomes.AnsweredCancelsSucceed | src/daemon.rs:3808-3846 | A cancel all of whose calls are answered succeeds unless the task is already completing, whatever runs in between. |
| ExecGateProgress.DoomedNeverDone | src/daemon.rs:2495-2516 | From a doomed state the worker never finishes, whatever the cancellers do, unless its own spawn or store call fails. |
| ExecGateProgress.Progress | src/daemon.rs:3972-4131 | From every other reachable state some step brings the end nearer and dooms nothing. |
| ExecGateProgress.FinishesUnlessDoomed | src/daemon.rs:3972-4131 | Worker and cancellers can all finish exactly if the state is not doomed: they never wait for each other for ever. |
| ExecGateProgress.RequestsAloneNeverStrand | src/daemon.rs:3808-3846 | With cancel requests only, no run is doomed. |
| ExecGateProgress.AbandonedShutdownStrands | src/daemon.rs:2495-2516 | A run of a shutdown pass that dooms the worker. |
| Registration.NextKeepsInv | src/daemon.rs:5581-5655 | Every step of every handler keeps the lock, the flag and what handlers hold consistent. |
| Registration.NothingNewBehindTheFence | src/daemon.rs:3522-3528 | No step adds a server, a bootstrap or a task while the flag is set. |
| Registration.FenceHolds | src/daemon.rs:3648-3660 | On every run during which the flag stays set, the registries only shrink. |
| Registration.FailedQuiesceRestoresTheFlag | src/daemon.rs:3578-3595 | A quiesce whose export fails puts back the flag it found, whatever ran in between. |
| Undisturbed.EnsureRegisters | src/daemon.rs:5553-5620 | An ensure on a daemon that accepts work and lacks the session starts one process and registers it, and changes nothing else. |
| Undisturbed.EnsureKeeps | src/daemon.rs:5525-5551 | An ensure that finds the session running changes nothing. |
| Undisturbed.EnsureReplaces | src/daemon.rs:5555-5620 | An ensure that finds the process exited stops it and registers a new one in its place. |
| Undisturbed.EnsureReplacesLate | src/daemon.rs:5609-5645 | So does one that finds it only when it comes to register its own. |
| Undisturbed.EnsureYields | src/daemon.rs:5623-5635 | An ensure that comes to register its process and finds another running stops its own. |
| Undisturbed.ServedEnsureRegisters | src/daemon.rs:5512-5655 | Whoever steps in between: once an ensure whose steps are all served is over, its session was registered at some moment of the run. |
| Undisturbed.ForegroundStartFiles | src/daemon.rs:5845-5892 | A foreground start files its new process as a bootstrap. |
| Undisturbed.ThreadStartFiles | src/daemon.rs:5740-5842 | So does a thread start, and the bootstrap stays once the thread is started. |
| Undisturbed.ThreadStartTakesBack | src/daemon.rs:5740-5842 | If the thread cannot be started, the process is taken out again and stopped. |
| Undisturbed.StartBehindTheFence | src/daemon.rs:5740-5892 | On a daemon that has closed meanwhile a start stops the process that it spawned. |
| Undisturbed.PromoteMoves | src/daemon.rs:6038-6150 | A promotion moves the process from the bootstraps to its session. |
| Undisturbed.PromoteReplaces | src/daemon.rs:6038-6150 | It stops and replaces a process of the session that has exited. |
| Undisturbed.PromoteYields | src/daemon.rs:6038-6150 | If the session's process runs, the bootstrap's is stopped instead. |
| Undisturbed.StopServerStops | src/daemon.rs:5717-5738 | A stop request takes the session out and stops its process. |
| Undisturbed.StopAllServersStops | src/daemon.rs:6682-6697 | The stop of all servers leaves none and stops every process that was registered. |
| Undisturbed.AbortStops | src/daemon.rs:6152-6173 | An abort takes the bootstrap out and stops its process. |
| Undisturbed.StopBootsStops | src/daemon.rs:6657-6680 | The reaper of bootstraps takes out exactly the expired ones and stops their processes. |
| Undisturbed.TaskEnters | src/daemon.rs:3613-3680 | A task is registered exactly if the daemon accepts work. |
| Undisturbed.QuiesceSetsTheFlag | src/daemon.rs:3576-3595 | A quiesce that can export sets the flag exactly if there is no bootstrap, and else leaves it as it was. |
| Undisturbed.UnquiesceClearsTheFlag | src/daemon.rs:3537-3543 | An unquiesce clears the flag. |
| Refusals.EnsureRefused | src/daemon.rs:5512-5545 | An ensure that the daemon or the entry refuses starts nothing. |
| Refusals.EnsureGivesUp | src/daemon.rs:5645-5650 | One that is refused when it comes to register its process stops it. |
| Refusals.PromoteGivesUp | src/daemon.rs:6038-6150 | A promotion of a process that has exited or does not match takes it out and stops it. |
| Refusals.StopRefused | src/daemon.rs:5717-5738 | A stop request or an abort that does not match what is registered stops nothing. |
| Refusals.QuiesceRefused | src/daemon.rs:3530-3543 | A daemon that is stopping, or is not the one that is meant, neither closes nor opens. |
| Conservation.NextKeepsLocated | src/daemon.rs:5565-5655 | Every step moves each process from one place to one place. |
| Conservation.EveryProcessIsInOnePlace | src/daemon.rs:6038-6150 | On every run each spawned app-server is under one session, in one bootstrap, in one handler's hands or stopped. |
| Conservation.ReturnsEmptyHanded | src/daemon.rs:5740-5892 | No handler returns while it still holds a process. |
| Conservation.ExportHidesNothing | src/daemon.rs:4924-4974 | At an export no process hides in a bootstrap or a promotion; one that is not registered is stopped, about to be, or not yet at its registration. |
| Conservation.ExportCoversWhatFollows | src/daemon.rs:4924-4974 | While the flag stays set after a successful export, every registered server is one that the export walked over. |
| AcceptLoop.QuietExitLosesNothing | src/daemon.rs:797-941 | A daemon that leaves as idle or as drained takes away no owned or adopted server, no bootstrap and no task; when it decides to leave there is no client, no reservation, no bootstrap and no task, and every server is handed off, none at all if it is idle. |
| AcceptLoop.IdleExitWaitsForTheLastClient | src/daemon.rs:797-890 | At an idle exit the timeout was counted from the end of the last client or later exactly if no refused connection absorbed its announcement after the last stamp; then a full timeout has passed since. |
| AcceptLoop.AbsorbedAnnouncementIsForgotten | src/daemon.rs:811-819 | A run on which the exception happens. |
| AcceptLoopExits.DaemonsLeave | src/daemon.rs:797-941 | Left alone, the main thread of a daemon that is asked to stop comes to its end, that of a drained daemon leaves as drained and that of a stale one as idle, and then nothing is registered any more. |
| Drain.StartCountdown | src/daemon.rs:4678-4699 | The countdown starts for a cancel whose signal is delivered, for the timeout, or five seconds after the leader's exit; it is recorded as cancelled or as timed out exactly for the first or the second of these. |
| Drain.EscalateWhenDue | src/daemon.rs:4701-4707 | SIGKILL once, at least five seconds after a SIGTERM attempt. |
| Drain.WaitProcessGroupExit | src/daemon.rs:4664-4718 | The wait goes on exactly while the group reads as alive and is not confirmed alive after the countdown; with agreeing readings it ends within eleven seconds and two polls of the leader's exit. |
| Drain.ContradictoryReadingsWaitForever | src/daemon.rs:4664-4718 | Readings under which the wait never ends. |
| StreamJoin.JoinStreams | src/daemon.rs:4746-4860 | The join returns both captures, the first stream error or a stuck worker, within thirteen seconds and four polls of the leader's exit; SIGTERM, SIGKILL and the abort went out at the iterations that the readings determine, SIGKILL nowhere else. |
| StreamJoin.TermIsFirst | src/daemon.rs:4771-4808 | SIGTERM is sent at the first iteration at which it is due. |
| StreamJoin.KillIsFirst | src/daemon.rs:4819-4825 | SIGKILL is sent at the first iteration that comes five seconds after SIGTERM. |
| StreamJoin.AbortIsFirst | src/daemon.rs:4771-4834 | The workers are told to stop at the first iteration at which that is due. |
| StreamJoin.GoneIsLatest | src/daemon.rs:4765-4770 | The group counts as gone from the first of the latest readings that all say so. |
| StreamJoin.Iterate | src/daemon.rs:4759-4846 | One iteration moves the countdown, the kill, the abort and the gone mark as the code says, and the acts match the marks. |
| StreamJoin.IterationInTime | src/daemon.rs:4759-4846 | An iteration that does not end the loop keeps all marks in time. |
| StreamJoin.StreamsFollowTheirWorkers | src/daemon.rs:4500-4535 | A stream has a capture exactly once its worker ended well, and the first error is kept. |
| StreamJoin.StreamsTellTheFirst | src/daemon.rs:4500-4535 | A capture is what its own worker ended with; the error is the earliest that a worker ended with, that of the standard output if both fail at once. |
| Shutdown.StopAll | src/daemon.rs:2471-2537 | Whatever the store answers, the last pass is at the latest the first at or after the kill deadline, every pass before it found a task to stop, and it is the last one because no task is registered, because none of them needs stopping, or because it is a kill pass after which every task that needs stopping has its cancel flag; the flags are those of all passes. |
| Shutdown.Controls.RunPass | src/daemon.rs:2495-2516 | A pass tells whether a task needed stopping and whether one was put off; it blocks the first, and cancels and signals those whose cancel is stored or due by force. |
| Shutdown.WhatPassesDo | src/daemon.rs:2495-2516 | After any passes a task is blocked exactly if it needed stopping in one of them, requested exactly if moreover its cancel was stored or four seconds had passed, durable and marked as signalled exactly if store and kernel said so. |
| Shutdown.VisitsSignal | src/daemon.rs:2503-2516 | Each visit that is not put off signals the task, with SIGKILL from six seconds on. |
| Shutdown.SignalsAreBacked | src/daemon.rs:2504-2515 | A task is signalled only if it needed stopping and its cancel was stored in that pass or four seconds had passed; SIGKILL exactly from six seconds on. |
| Shutdown.SignalledAreRequested | src/daemon.rs:2843-2846 | Every signalled task has its cancel flag set. |
| Shutdown.NothingPutOff | src/daemon.rs:2509-2516 | From four seconds on every task that needs stopping is cancelled and signalled in its pass. |
| Spool.SpoolStream | src/daemon.rs:4548-4620 | For any chunks the file holds the first bytes, the tail the last, the count saturates, and the mark is set exactly for an abort or a longer stream. |
| Spool.TakeChunk | src/daemon.rs:4580-4606 | One read extends the capture of a stream to the capture of the longer stream. |
| Spool.PushTail | src/daemon.rs:4599-4606 | Pushing bytes one at a time keeps exactly the last ones, for any capacity. |
| Spool.AppendBounded | src/daemon.rs:6352-6366 | The buffer ends with the last bytes of everything, whatever it held. |
| Spool.DrainListener | src/daemon.rs:6290-6328 | An address is reported once: the one in the last bytes after the first read at which there is one. |
| Spool.LastOfLast | src/daemon.rs:6352-6366 | Keeping the last bytes chunk by chunk is keeping the last bytes of the stream. |
| Sha1.Sha1Digest | src/cli_app_server_client.rs:792-859 | The block loop computes the hash of section 6.1.2 of FIPS 180-4 for every input. |
| Sha1Example.HashOfAbc | src/cli_app_server_client.rs:792-859 | The digest of "abc" is the one that is published with FIPS 180-4. |
| Sha1.Pad | src/cli_app_server_client.rs:793-799 | The padding loop stops, with the least padding of section 5.1.1 of FIPS 180-4 and a length divisible by 64. |
| Sha1.Compress | src/cli_app_server_client.rs:807-848 | One block is compressed as the standard's recursive schedule and rounds say. |
| Sha1.Schedule | src/cli_app_server_client.rs:808-821 | The word array is the message schedule. |
| Sha1.Choice | src/cli_app_server_client.rs:830-830 | The code's or-form of the choice function is the standard's. |
| Sha1.Majority | src/cli_app_server_client.rs:832-832 | The code's or-form of the majority function is the standard's. |
| Base64.Base64Encode | src/cli_app_server_client.rs:764-790 | The chunked encoder computes the encoding of section 4 of RFC 4648. |
| Base64.DecodeInvertsEncode | src/cli_app_server_client.rs:764-790 | Decoding gives back every byte string, and the length is four for every three bytes begun. |
| Base64.EncodeInvertsDecode | src/cli_app_server_client.rs:764-790 | Whatever decodes is the encoding of what it decodes to. |
| Base64.KnownEncodings | src/cli_app_server_client.rs:764-790 | Examples of section 10 of RFC 4648, one for each length of the last group. |
| Base64.AlphabetEnds | src/cli_app_server_client.rs:765-765 | The ends of the four ranges of the alphabet. |
| Frames.EncodeFrame | src/cli_app_server_client.rs:329-368 | The encoder refuses exactly the payloads that are too long and else writes the masked frame of section 5.2 of RFC 6455 in the shortest length form, byte by byte: the length in network byte order, the key, and the payload combined with it. |
| Frames.BigEndianAt | src/cli_app_server_client.rs:348-356 | A written length has its bytes in network byte order, the first counting most. |
| Frames.HeaderBytes | src/cli_app_server_client.rs:376-392 | What a header says, from its bytes: the longer lengths are read in network byte order. |
| Frames.XorBitsAt | src/cli_app_server_client.rs:406-410 | The arithmetic exclusive or has a bit set exactly where the two numbers differ. |
| Frames.WireParses | src/cli_app_server_client.rs:329-412 | Every frame that may be sent, masked or not, reads back as itself, whatever follows it. |
| Frames.StreamReadsBack | src/cli_app_server_client.rs:329-412 | Any sequence of frames, concatenated, reads back as those frames. |
| Frames.MaskTwice | src/cli_app_server_client.rs:406-410 | Unmasking inverts masking. |
| Frames.FramesPrefix | src/cli_app_server_client.rs:370-412 | Whole frames at the front of a stream are the first frames of the stream. |
| Connection.Socket.ReadExactOrTimeout | src/cli_app_server_client.rs:868-905 | The buffer gets the next bytes of the peer, in any pieces; a timeout is reported only before the first byte, and every timeout or failure has its cause in the turns. |
| Connection.Socket.ReadLength | src/cli_app_server_client.rs:384-392 | The length is the short one, or the next two or eight bytes, the first counting most. |
| Connection.Socket.ReadFrame | src/cli_app_server_client.rs:370-412 | A frame is read as the standard defines it, and it is the next one to come; a timeout leaves the stream where it was; a malformed frame is reported as such. |
| Connection.ReadsWhatWasSent | src/cli_app_server_client.rs:370-412 | Whatever the pieces and the times, the frames read so far are the first of those sent. |
| Connection.ReadAll | src/cli_app_server_client.rs:370-412 | If no deadline passes and no read fails, all frames that were sent are read, in any pieces and with any waits between. |
| Receive.NextText | src/cli_app_server_client.rs:287-304 | A receive ends as the frames to come decide, with the first text or close frame or a ping whose answer cannot be written; it writes exactly one frame for each ping before, in order, a pong with the ping's own payload; a timeout leaves no frame half read. |
| Receive.FirstTextDecides | src/cli_app_server_client.rs:287-304 | The frames decide for a text or close frame exactly if it is the first such frame and the pings before it can be answered. |
| Receive.SendFrame | src/cli_app_server_client.rs:316-327 | What is written carries the frame, and it is written exactly if the frame may be sent and the write succeeds. |
| Receive.CarriedReadsBack | src/cli_app_server_client.rs:329-412 | What carries a frame reads back as that frame, whatever follows it. |
| Waits.ArrivedByReceive | src/cli_app_server_client.rs:291-298 | What the frames of one receive add to the decodable messages. |
| Client.JsonRpcClient.Recv | src/cli_app_server_client.rs:282-305 | On a socket that delivers, the reception is the next of the queue and then of what the frames to come give; in any case the oldest queued message comes first, every message is handed out or queued exactly once, and a timeout, a close and an error each have their cause in this receive. |
| Client.JsonRpcClient.RequestWithHandler | src/cli_app_server_client.rs:215-280 | If a number is left and the frame can be written, it is written and then only pongs; the wait takes the queue as number and clock say, on a socket that delivers ends as queue and frames decide, and on any socket fails only with a cause; every other message goes to the handler, in order. |
| Client.JsonRpcClient.Request | src/cli_app_server_client.rs:201-213 | The same, with the messages passed over queued behind the rest of the old queue, none lost or doubled; an ordered queue stays ordered exactly if nothing was sent or queue, number and clock keep it so. |
| Client.JsonRpcClient.constructor | src/cli_app_server_client.rs:158-163 | A new client has an empty queue, has used no number and may send requests. |
| Client.JsonRpcClient.TakeId | src/cli_app_server_client.rs:225-231 | Request numbers increase; the last one is never used. |
| Client.JsonRpcClient.DrainPendingMessages | src/cli_app_server_client.rs:307-309 | The whole queue is handed out. |
| Waits.RequestKeepsOrderIff | src/cli_app_server_client.rs:201-213 | After a wait the queue is in order of arrival exactly if it took nothing from the old queue, all of it, or just the response at its head. |
| Waits.TakenIs | src/cli_app_server_client.rs:241-263 | The number of queued messages that a wait takes: up to the response or until the time is over. |
| Waits.WaitForFirst | src/cli_app_server_client.rs:241-279 | A wait hands on other messages while time is left, and the first reception that is not another message gives its result. |
| Overtaken.QueueLosesOrder | src/cli_app_server_client.rs:201-213 | A client that receives two messages in order and after two requests holds them in the wrong order. |

## Left out

- The SQLite store: a store call succeeds or fails as the event or parameter says, and is durable when it succeeds.
- Sockets, handshake text, JSON and UTF-8: the decoder of messages is an arbitrary function, requests are encoded by an arbitrary function.
- Delayed execution of a timed-out call, several coordinators at once, late answers of a stopping daemon.
- Daemon probing, startup locks and the lock file, plugin calls, models, self-update, file-system layout and artifacts: mostly input and output or simple branches.
- App-server reservations, except as an exit blocker of the main loop.
- The two waits after the last shutdown pass, and syncing a spool file to disk.
- Bit operations on header bytes and base64 sextets are written as arithmetic; SHA-1 works on machine words.
- Connection.Socket.ReadExactOrTimeout: the deadline is one answer a turn instead of a clock, because any pattern of times is then covered.
- Drain.WaitProcessGroupExit: runs at most a given number of iterations, because the loop need not end; its contract speaks of every such number.
- StreamJoin.JoinStreams: the join state is a record that is replaced, not an object updated in place.
- Receive.SendFrame: a failed write is taken to have written nothing, because how much of it went out is up to the socket.
- Client.JsonRpcClient.Request: on a socket that stops delivering, the contract fixes what is taken from the queue and the cause of a failure but not at which read the wait ends, because that is up to the socket.
- ExecGate.NextKeepsInv: reading a process's state and looking at the process are one step each.
- AcceptLoop.QuietExitLosesNothing: lifecycle records are not followed to the exit.
