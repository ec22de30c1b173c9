# Verified models of the vast agent

The vast agent runs READ investigations and approved write actions on GPU hosts. This project models
the parts that must stay right under threads, crashes and untrusted input, and proves what they
promise:

- **Host locks and cancellation** (`HostLock`, `Cancellation`, `LockProtocol`, `LockTheorems`,
  `CancelTheorems`, `LockRefinement`). The
  per-host lock with its three modes is a class whose ghost fields say who holds it, and a step
  relation over any number of callers, registered processes and cancellers, in which a step is a
  stretch of code under one mutex. The class and the protocol use the same transition functions, and the lock of the
  approval ledger below is an abstraction of this one.
- **The approval ledger** (`Actions`, `Isoformat`, `Policies`, `Ledger`, `Worker`, `Approvals`,
  `ApprovalTheorems`, `EventLog`, `Coordinator`, `SoloRuns`). Every connection block is one atomic step on durable
  rows; a crash erases all calls and locks and keeps the rows. The world holds any number of proposals
  and of concurrent approvals, rejections, deaths, crashes and restarts. `Coordinator` holds the calls
  as they are written, each proved to do what the worker of the protocol does when it runs alone.
- **The investigation loop** (`Session`, `Investigation`, `InvestigationTheorems`, `ToolLayer`,
  `InvestigationLimits`, `InvestigationAnswers`, `InvestigationTurns`, `InvestigationResults`,
  `InvestigationEvidence`, `InvestigationAgent`, `ArgvSplit`). Model responses,
  tool outputs, sizes, clocks and cancellation are arbitrary functions. `Investigation` specifies a run,
  `InvestigationAgent` is the nested loop over mutable objects proved equal to it.
- **The reboot monitor** (`Reboot`), **the READ gate** (`ReadGate`, `GatePaths`, `GateRules`), **the parsers**
  (`Lines`, `PciParser`, `PciRoundTrip`, `ServiceParser`) and **the capability chain** (`Capability`).

`Text` and `Lines` hold the string operations (folding, substrings, white space, line splitting),
`Wrappers` the option type. All paths below are those of the repository.

Several promises are false of the code as it stands. Each is stated with a run or an input that breaks
it and the exact condition under which it holds:

- two racing `cancel` calls both return True: `RacingCancels`, `BothCancelsWin`;
- a typed proposal under a host alias always fails its recheck: `TypedProposalRuns`;
- a run row is left unfinished under a terminal status: `RebootLeftUnfinished`, `UnfinishedExactly`;
- an exact read is executed twice: `ExactCallTwice`, `ExactCallsOnce`;
- a call is answered twice: `AnsweredTwice`, `AnsweredOnce`;
- a bare crontab, which is no READ, becomes one with `-l`: `ReadIsClosed`;
- with help only, the classification is not closed under extension: `BareCommandOpens`, `HelpOnlyExactly`;
- an event log starts with APPROVED: `ApprovedFirst`, `LogIsWordExactly`. This takes an
  approval of an id that `propose` has not returned yet. The shipped interface only offers ids that it
  has returned (`src/vast_agent/discord_app/gateway.py:32-33`), so there `LogIsWord` applies and every log
  is in the language.

## Model

| member | source | states |
|---|---|---|
| HostLock.CountedAdmit | src/vast_agent/jobs/locks.py:61-91 | Letting a caller in through an open guard keeps the variables equal to the counts of holders and waiting writers, and so mutual exclusion. |
| HostLock.CountedRelease | src/vast_agent/jobs/locks.py:96-104 | Letting go by any holder keeps the counts. |
| HostLock.CountedMeans | src/vast_agent/jobs/locks.py:42-47 | The flags name their holders exactly, a writer is alone, and the test of `heavy` in the writer's guard decides nothing. |
| HostLock.OpenMeans | src/vast_agent/jobs/locks.py:61-91 | Each guard, told by who holds and who waits: a writer comes in when nobody holds, a heavy reader beside plain readers only, a reader beside any reader, and neither reader while a writer waits. |
| HostLock.HostState.Enter | src/vast_agent/jobs/locks.py:61-62 | A writer announces itself before its first look at the guard; nothing else changes. |
| HostLock.HostState.Ready | src/vast_agent/jobs/locks.py:64-88 | The predicate of each mode, or cancellation, and what it asks of the holders and of the waiting writers. |
| HostLock.HostState.Leave | src/vast_agent/jobs/locks.py:69-91 | What a caller that comes out of its wait does to the variables, admitted or turned away, with the holders to match. |
| HostLock.HostState.Release | src/vast_agent/jobs/locks.py:96-104 | The variables and holders after a release. |
| HostLock.HostLockManager.StateFor | src/vast_agent/jobs/locks.py:32-33 | The first use of a folded name creates its unlocked state; later uses find the same object. |
| HostLock.SameLock | src/vast_agent/jobs/locks.py:32-33 | Two names share a lock exactly if they fold alike. |
| Cancellation.CancellationToken.Register | src/vast_agent/jobs/cancellation.py:20-28 | The callback is listed, or run at once when the token is cancelled already; every registration stays accounted for. |
| Cancellation.CancellationToken.Unregister | src/vast_agent/jobs/cancellation.py:30-33 | One listing of the callback goes and is counted as dropped. |
| Cancellation.CancellationToken.Cancel | src/vast_agent/jobs/cancellation.py:35-43 | The first call runs the listed callbacks once each, in order; afterwards every registration was run or dropped. |
| Cancellation.WithoutCounts | src/vast_agent/jobs/cancellation.py:30-33 | Removal takes away exactly one occurrence. |
| LockProtocol.InvStep | src/vast_agent/jobs/locks.py:49-104 | Every step of callers and cancellers keeps the invariant of locks, tokens, lists and wakeups. |
| LockProtocol.InvRun | src/vast_agent/jobs/locks.py:49-104 | The invariant holds in every state of every run. |
| LockTheorems.NoLostWakeup | src/vast_agent/jobs/locks.py:49-104 | A thread asleep with a true predicate has a canceller of its token that is still to take or to run its callback. |
| LockTheorems.LockInvariant | src/vast_agent/jobs/locks.py:42-104 | In every reachable state `readers`, `heavy`, `writer` and `waiting_writers` say exactly who holds and who waits. |
| LockTheorems.GuardsOpenExactly | src/vast_agent/jobs/locks.py:61-91 | Over every run, a caller that looks at its guard is let through exactly then, or when it is cancelled. |
| LockTheorems.MutualExclusion | src/vast_agent/jobs/locks.py:61-91 | Two callers inside one host's lock are both readers, and not both heavy. |
| LockTheorems.WriterPreference | src/vast_agent/jobs/locks.py:61-91 | While a writer waits on a host no reader of either kind comes in there. |
| LockTheorems.HostsAreSeparate | src/vast_agent/jobs/locks.py:32-38 | A caller's step leaves the variables, holders and waiting writers of other hosts alone, and wakes or moves nobody there. |
| LockTheorems.CallbackRunsAtMostOnce | src/vast_agent/jobs/cancellation.py:20-43 | No callback runs twice however registering, unregistering and several cancels interleave. |
| CancelTheorems.CancelReachesAll | src/vast_agent/jobs/cancellation.py:20-43 | No lost cancellation: in every reachable state the callback of whoever is registered on a cancelled token, in time or too late, has run exactly once or is still in the hands of a cancel under way. |
| LockTheorems.SwapIsFinal | src/vast_agent/jobs/cancellation.py:35-43 | A set event with a listed callback has a canceller still to swap; a token that was swapped lists nothing. |
| LockTheorems.SwappedForever | src/vast_agent/jobs/cancellation.py:35-43 | After a swap the list is empty in every later state. |
| LockTheorems.CallbacksRunUnlocked | src/vast_agent/jobs/cancellation.py:20-43 | Whoever runs a callback, a late registration or a cancel, holds no token lock, and no registration of its token is then between its test and its append. |
| LockRefinement.LockRefines | src/vast_agent/jobs/locks.py:61-104 | Over every run of the lock protocol the holders of a host show, state by state, as the readers and the writer that the approval protocol counts, and move as it moves them; so its certificate of a sole writer is about this lock. |
| LockRefinement.ApprovalsTakeLockSteps | src/vast_agent/actions/coordinator.py:117-118 | Whatever the approval protocol does short of a crash moves each lock by such a step of the worker that moves. |
| LockTheorems.NoStuckWaiter | src/vast_agent/jobs/locks.py:49-104 | When only holders can still move, a host without holders has nobody waiting. |
| LockTheorems.ThreadMoves | src/vast_agent/jobs/locks.py:49-104 | No deadlock between condition and token lock: while a thread is under way, something other than a release can happen. |
| LockTheorems.CancellerMoves | src/vast_agent/jobs/cancellation.py:35-43 | The same while a cancel is under way, whatever lock its next callback needs. |
| LockTheorems.BothCancelsWin | src/vast_agent/jobs/cancellation.py:35-43 | Two cancels of one token both return True exactly if at some moment both had read the event unset and neither had set it. |
| LockTheorems.RacingCancels | src/vast_agent/jobs/cancellation.py:36-38 | A run in which they do. |
| Isoformat.TextOrderIsTimeOrder | src/vast_agent/storage/database.py:236-247 | For UTC moments the text order of `isoformat` is the order in time, with and without microseconds. |
| Isoformat.TextIsFaithful | src/vast_agent/storage/database.py:236-247 | Equal texts are equal moments. |
| Isoformat.EarlierIsTime | src/vast_agent/storage/database.py:236-247 | Comparing the fields one after the other compares instants, leap years included. |
| Isoformat.TextReadsBack | src/vast_agent/storage/database.py:236-247 | The text has the ISO layout, and its digits read back as the fields of the moment. |
| Policies.SafeMeansNoCause | src/vast_agent/actions/policies.py:24-61 | The table of what each action demands agrees with the list of reasons to block it. |
| Policies.HostReasons | src/vast_agent/actions/policies.py:27-31 | Exactly the reasons the host gives. |
| Policies.ActionReasons | src/vast_agent/actions/policies.py:32-61 | Exactly the reasons the action gives. |
| Policies.Evaluate | src/vast_agent/actions/policies.py:23-67 | The decision by the table, with exactly the reasons or warnings that hold. |
| Ledger.Database.ApproveActionProposal | src/vast_agent/storage/database.py:234-248 | A single winner: a pending, unexpired row is approved, a pending expired one is marked so, anything else is left alone. |
| Ledger.Database.RejectActionProposal | src/vast_agent/storage/database.py:250-257 | The same guard for a rejection, which leaves an expired row pending. |
| Ledger.Database.SetProposalStatus | src/vast_agent/storage/database.py:259-263 | Status and reason are overwritten, nothing else. |
| Ledger.Database.CreateActionRun | src/vast_agent/storage/database.py:265-271 | At most one run per proposal. |
| Ledger.Database.FinishActionRun | src/vast_agent/storage/database.py:273-280 | The run takes the final status, nothing else changes. |
| Ledger.Database.AddActionEvent | src/vast_agent/storage/database.py:282-287 | One event is appended to the log of one proposal. |
| Ledger.Database.ReconcileActions | src/vast_agent/storage/database.py:289-301 | Every proposal is terminal afterwards; the number returned is that of the pending ones. |
| Ledger.ApproveOrExpire | src/vast_agent/storage/database.py:236-257 | Approval and expiry split the pending rows at the moment of expiry without gap or overlap, with the rows they leave; a late rejection changes nothing. |
| Ledger.ReconcileMeans | src/vast_agent/storage/database.py:289-301 | What a restart makes of row and run, status by status. |
| Ledger.ReconcileIsIdempotent | src/vast_agent/storage/database.py:289-301 | Helper: a second reconciliation changes nothing. |
| Worker.RunIsWord | src/vast_agent/actions/coordinator.py:134-166 | Whatever the commands answer, the events of a run are in the language and its final status is terminal. |
| Worker.FinalStatusIsDeserved | src/vast_agent/actions/coordinator.py:139-213 | The recorded end of a run, told by the fields of its outcome: SUCCEEDED, FAILED, FAILED_VERIFY, SUCCEEDED_UNVERIFIED and RECOVERY_FAILED each exactly under its condition, and nowhere among the events before. |
| Worker.EventsTell | src/vast_agent/actions/coordinator.py:139-213 | Helper: which events a run writes between its dispatch and its end, told by its outcome. |
| Worker.PassedMeans | src/vast_agent/actions/coordinator.py:119-130 | Helper: a recheck that passes found operations enabled, nothing blocking, and the fingerprint unchanged. |
| Worker.StepOk | src/vast_agent/actions/coordinator.py:92-213 | Every step of a call keeps its case: the language of the log, at most one approval and one dispatch, and their certificates. |
| Approvals.MoveIsSound | src/vast_agent/actions/coordinator.py:92-213 | A step of one call leaves the other calls on its proposal in their places, and never makes a second owner. |
| Approvals.InvStep | src/vast_agent/actions/coordinator.py:92-213 | Every step of the world keeps the invariant, crashes and restarts included. |
| Approvals.InvRun | src/vast_agent/actions/coordinator.py:92-213 | The invariant holds in every state of every run. |
| ApprovalTheorems.TerminalForever | src/vast_agent/storage/database.py:234-301 | Terminal statuses are absorbing, and nothing is dispatched under one. |
| ApprovalTheorems.AtMostOneDispatch | src/vast_agent/actions/coordinator.py:150 | Over every run at most one step dispatches a command or reboot for a proposal. |
| ApprovalTheorems.NoDispatchWhenTerminal | src/vast_agent/storage/database.py:289-301 | No dispatch for a proposal once it is terminal, in particular after it was reconciled. |
| ApprovalTheorems.RestartEndsAll | src/vast_agent/app.py:330 | Helper: after a restart every proposal is terminal. |
| ApprovalTheorems.SecondRestartKeepsLedger | src/vast_agent/storage/database.py:289-301 | A crash and restart straight after a restart change no row. |
| ApprovalTheorems.DispatchCertificate | src/vast_agent/actions/coordinator.py:92-150 | Every dispatch follows one approval by the owner in the channel, won while pending and unexpired, and a recheck that passed on the very fingerprint proposed, alone in the host's lock. |
| ApprovalTheorems.EndsAsDeserved | src/vast_agent/actions/coordinator.py:134-213 | Over every run, what the row, the run or the log records as the end of a proposal is what the outcome of its one dispatch deserves, and that outcome is what a step of its worker brought back. |
| ApprovalTheorems.OneWorkerPerHost | src/vast_agent/actions/coordinator.py:117-118 | Two workers never have the WRITE lock of one host, under whatever names or aliases. |
| ApprovalTheorems.RecheckReasons | src/vast_agent/actions/coordinator.py:119-188 | Helper: why a recheck turns a proposal down, the first reason first. |
| ApprovalTheorems.UnfinishedRuns | src/vast_agent/actions/coordinator.py:131-138 | The only runs left unfinished under a terminal status are reboots without a reboot coordinator. |
| ApprovalTheorems.UnfinishedExactly | src/vast_agent/actions/coordinator.py:134-138 | In every reachable state a run is unfinished under a terminal status exactly when a worker without a reboot coordinator has abandoned that reboot since the last restart. |
| SoloRuns.RebootLeftUnfinished | src/vast_agent/actions/coordinator.py:134-138 | For every reboot that may be proposed, a whole run, from an empty ledger, that leaves it so. |
| ApprovalTheorems.RecheckExactly | src/vast_agent/actions/coordinator.py:119-130 | Helper: the recheck lets a pending proposal go on exactly if operations are enabled, request and snapshot are unchanged, and the policy does not block. |
| ApprovalTheorems.TypedProposalRuns | src/vast_agent/actions/coordinator.py:59-64 | With the snapshot and settings it was proposed with, a typed proposal passes its recheck exactly if it named the host by its own name; under an alias none ever does. |
| ApprovalTheorems.ApprovedProposalRuns | src/vast_agent/actions/coordinator.py:99-150 | Among any other calls, readers and proposals, a worker that has won the approval and finds what was proposed, still good to run, is never turned to invalidate it: its eighth move writes EXECUTING and its ninth dispatches, save a reboot without a coordinator. |
| ApprovalTheorems.UnchangedPasses | src/vast_agent/actions/coordinator.py:119-188 | Helper: what was proposed passes when it is found again exactly if it is still good to run: operations enabled, and the checks of its kind not blocking. |
| ApprovalTheorems.WorkersMove | src/vast_agent/actions/coordinator.py:117-118 | Only the lock, or a host that no longer resolves, can hold a call up. |
| EventLog.EveryPhaseCompletes | src/vast_agent/actions/coordinator.py:92-213 | Every log in the language can be completed to a full word. |
| EventLog.EventsAfter | src/vast_agent/actions/coordinator.py:66-108 | A step writes at most one event, PROPOSED exactly when it proposes; a losing approval writes none. |
| EventLog.LogIsWordExactly | src/vast_agent/actions/coordinator.py:65-108 | In every reachable state a log is in the language exactly if no call wrote its approval or rejection before `propose` had returned the id. |
| EventLog.LogIsWordIffProposedFirst | src/vast_agent/actions/coordinator.py:65-108 | Helper: that is, if it starts with PROPOSED. |
| EventLog.LogIsWord | src/vast_agent/actions/coordinator.py:65-108 | When only ids that `propose` has returned are approved or rejected, every log is in the language, crashes included. |
| EventLog.ApprovedFirst | src/vast_agent/actions/coordinator.py:65-66 | A run in which an approval comes between the row and its PROPOSED event, for any pending proposal. |
| Coordinator.DriveOk | src/vast_agent/actions/coordinator.py:92-213 | A call alone keeps everything a worker's steps keep. |
| Coordinator.Consumed | src/vast_agent/actions/coordinator.py:117-131 | Helper: lock, preflight and recheck lead to the run or to the invalidation, as the recheck says. |
| Coordinator.Dispatched | src/vast_agent/actions/coordinator.py:134-150 | Helper: one dispatch, or the invalidation of a reboot without a coordinator. |
| SoloRuns.DriveIsRun | src/vast_agent/actions/coordinator.py:92-213 | What a call does that meets nobody else is what some run of the protocol does. |
| Coordinator.UnchangedProposalRuns | src/vast_agent/actions/coordinator.py:49-166 | For a call that meets nobody else: a typed proposal under the host's own name, approved in time and found unchanged, reaches EXECUTING and is dispatched, save a reboot without a coordinator. |
| Coordinator.ActionCoordinator.Propose | src/vast_agent/actions/coordinator.py:49-90 | A new row with the host's own name, the fingerprint of what was asked, BLOCKED or PENDING by the checks, its fields spelled out, and one PROPOSED event. |
| Coordinator.ActionCoordinator.Approve | src/vast_agent/actions/coordinator.py:92-100 | The ledger and the commands sent are those of the worker run alone; success is reported exactly when this call won and its run ends SUCCEEDED, that is when its command was sent and the outcome achieved what was asked; without authority nothing happens. |
| Coordinator.ActionCoordinator.Reject | src/vast_agent/actions/coordinator.py:102-108 | Won exactly by the owner in the channel on a pending, unexpired row; a loser changes nothing. |
| Coordinator.ActionCoordinator.Consume | src/vast_agent/actions/coordinator.py:110-213 | The recheck, the run and its end are those of the worker; success is reported exactly when its run ends SUCCEEDED. |
| Coordinator.ActionCoordinator.Execute | src/vast_agent/actions/coordinator.py:134-166 | One command is sent, or none for a reboot without a coordinator; row, run and last event end as the outcome deserves by its fields; success is reported exactly when a command was sent and achieved what was asked. |
| Coordinator.ActionCoordinator.Report | src/vast_agent/actions/coordinator.py:140-165 | The events of the run, in order, then its end. |
| Reboot.ShapeMeans | src/vast_agent/actions/reboot.py:53-68 | The monitor's state is the shape of the polled answers: up*, up* down+, or up* down+ up. |
| Reboot.PollFits | src/vast_agent/actions/reboot.py:52-68 | Before the deadline there is room for one more poll within the quotient of timeout and interval, rounded up. |
| Reboot.RecoveredMeans | src/vast_agent/actions/reboot.py:76-97 | The recovery check, sign by sign: the five major faults, D-state, complete evidence over SSH, failed units, the vast service, and the GPU of a host that was faulty before. |
| Reboot.NeverSentMeans | src/vast_agent/actions/reboot.py:99-110 | A dispatch is taken as never sent exactly if it failed in time with a host key error or one of six phrases in its error text, in capitals or not. |
| Reboot.RebootCoordinator.ExecuteApproved | src/vast_agent/actions/reboot.py:44-74 | One dispatch; nothing is polled exactly if it was never sent; the result and the trace follow from the shape of the answers and from the signs of health after them; the polls are bounded. |
| Session.InvestigationSession.Add | src/vast_agent/agent/investigation_session.py:61-92 | The new contents and whether the evidence was kept, whole or truncated. |
| Session.AddedExactly | src/vast_agent/agent/investigation_session.py:61-92 | What an addition does, told by sizes: a record that fits is kept whole, else without its facts if only that fits, else not at all; the call is cached and traced without its host. |
| Session.CharsAddUp | src/vast_agent/agent/investigation_session.py:53-55 | Helper: the size of the evidence is the sum of the sizes of its records. |
| Session.AddedKeeps | src/vast_agent/agent/investigation_session.py:53-92 | A call allowed by `can_call` keeps the calls distinct and both bounds, and is cached even when its evidence is not kept. |
| Session.KeysTellApart | src/vast_agent/agent/investigation_session.py:46-51 | Keys of one session agree exactly if tool and arguments do. |
| Session.TraceNamesTool | src/vast_agent/agent/investigation_session.py:94-96 | The trace names the tool exactly if the host has no colon, or what follows its first colon happens to be the tool. |
| Session.TraceNamesToolOfHost | src/vast_agent/models/host.py:14 | For every name a configured host can have the trace names the tool. |
| Investigation.DiscoveryContinuation | src/vast_agent/agent/orchestrator.py:547-600 | A continuation follows a discovery that found a path, has arguments, passes the READ gate, and stands at most for a planned call. |
| Investigation.FirstPending | src/vast_agent/agent/orchestrator.py:563-580 | The first planned call of the executable on the same host. |
| Investigation.LatestSelected | src/vast_agent/agent/orchestrator.py:581-594 | The latest executed call of the executable. |
| InvestigationEvidence.ContinuationExactly | src/vast_agent/agent/orchestrator.py:547-600 | A call is continued exactly if it is a discovery that found a path, the READ gate lets the command through, and there is something to continue it with: its own arguments, else the first planned call that waits for the executable, else the latest executed one. |
| InvestigationEvidence.BaseNameMeans | src/vast_agent/agent/orchestrator.py:572 | Helper: the base name is the part after the last slash. |
| InvestigationEvidence.TextMeans | src/vast_agent/agent/orchestrator.py:562 | Helper: the text of an argument, by the kind of its value. |
| InvestigationTurns.RunOpens | src/vast_agent/agent/orchestrator.py:367-378 | Helper: a run begins with the question and an empty session. |
| InvestigationTurns.TurnBegins | src/vast_agent/agent/orchestrator.py:397-403 | The steps of a response join the conversation in order, and the session counts the interaction. |
| InvestigationTurns.CallPassed | src/vast_agent/agent/orchestrator.py:429-433 | Helper: a call that a continuation has stood for is passed over. |
| InvestigationTurns.CallAborted | src/vast_agent/agent/orchestrator.py:434-451 | Helper: a call that is cancelled, or of an unknown tool, ends the turn and leaves everything as it was. |
| InvestigationTurns.CallTurnedAway | src/vast_agent/agent/orchestrator.py:437-459 | A call without room, or made before, ends the turn: it and all later calls are answered with that reason, and nothing is read. |
| InvestigationTurns.CallDropped | src/vast_agent/agent/orchestrator.py:468-482 | A read that brings back more than the session can keep ends the turn, and its call and all later ones are told so. |
| InvestigationTurns.CallAnswered | src/vast_agent/agent/orchestrator.py:468-530 | A read that is kept is answered with its record and, if there is something to continue it with and room, continued: the read that is made, the record that is added, whom the result answers, and which planned call is passed over. |
| InvestigationTheorems.ExecutedKeeps | src/vast_agent/agent/orchestrator.py:468-475 | A read keeps the books: cached keys are those of the reads that were no repeats, in order. |
| InvestigationTheorems.StepsKeep | src/vast_agent/agent/orchestrator.py:427-526 | The calls of one response keep the books. |
| InvestigationTheorems.StepsReplay | src/vast_agent/agent/orchestrator.py:427-526 | Unless the investigation ends there, every call of a response is answered, through the bound, duplicate, unretained and continuation paths. |
| InvestigationTheorems.Budgets | src/vast_agent/agent/orchestrator.py:360-544 | Interactions, cached calls, remote reads and evidence characters stay within their bounds for arbitrary answers. |
| InvestigationTheorems.ReplayCoverage | src/vast_agent/agent/orchestrator.py:403-543 | Before every later interaction each call of every earlier response has a result, and what was sent is replayed verbatim. |
| InvestigationTheorems.ExactCallsOnce | src/vast_agent/agent/orchestrator.py:494-514 | No exact call runs twice exactly when no continuation finds its call made already; only continuations repeat, and all of them passed the gate. |
| InvestigationEvidence.EvidenceIsReal | src/vast_agent/agent/orchestrator.py:468-526 | In every investigation each result that carries evidence carries the condensed output of a read of its tool that was made, and each record of the session is that of a read, whole or without its facts. |
| InvestigationLimits.ExactCallTwice | src/vast_agent/agent/orchestrator.py:494-512 | For every command on a configured host that the gate lets through and a discovery can find, a run that executes it twice, over a tool layer that checks its arguments. |
| ToolLayer.SomeRunnable | src/vast_agent/agent/host_read.py:113-117 | There is such a command on every configured host. |
| InvestigationLimits.ScriptIsObeyed | src/vast_agent/agent/functions.py:38-47 | The tools of these runs answer a path only to accepted arguments, and an absolute one. |
| InvestigationAnswers.WorkedNow | src/vast_agent/agent/orchestrator.py:432-526 | The results that a call adds when it is worked on, for each call still to come. |
| InvestigationAnswers.ResponseAnswers | src/vast_agent/agent/orchestrator.py:427-526 | Over a whole response each call gets a result for every continuation that stands for it, and one more if there is none or if the loop halts before it. |
| InvestigationAnswers.AnsweredOnce | src/vast_agent/agent/orchestrator.py:427-526 | A call is answered exactly once if and only if, after a continuation has stood for it and before it is reached, no step halts and no second continuation stands for it; it is never left out. |
| InvestigationLimits.AnsweredTwice | src/vast_agent/agent/orchestrator.py:451-460 | For every such command, a run in which the call for it is answered twice. |
| InvestigationAgent.Conversation.AppendUnexecuted | src/vast_agent/agent/orchestrator.py:650-660 | One result per call, in order. |
| InvestigationAgent.Agent.FindPending | src/vast_agent/agent/orchestrator.py:563-580 | The search loop finds the first fitting planned call. |
| InvestigationAgent.Agent.FindSelected | src/vast_agent/agent/orchestrator.py:581-594 | The search loop finds the latest fitting executed call. |
| InvestigationAgent.Agent.Discover | src/vast_agent/agent/orchestrator.py:547-600 | The continuation of the specification. |
| InvestigationAgent.Agent.RunCalls | src/vast_agent/agent/orchestrator.py:427-528 | The inner loop does to session, conversation and reads what the specification says. |
| InvestigationAgent.Agent.Synthesize | src/vast_agent/agent/orchestrator.py:260-315 | The reserved interaction, without tools, and its conclusion. |
| InvestigationAgent.Agent.Investigate | src/vast_agent/agent/orchestrator.py:360-544 | The nested loops are the specified run: result, session, conversation, reads and interactions, of which `ResultExactly`, `LogExactly`, `StateExactly` and the lemmas on turns say what they are. |
| InvestigationResults.ResultExactly | src/vast_agent/agent/orchestrator.py:360-544 | The result of every investigation, told by its last interaction, the calls looked at after the last response, and the bounds: ANSWERABLE, ERROR, CANCELLED, BOUND_REACHED and the other reasons each exactly under its condition. |
| InvestigationResults.LogExactly | src/vast_agent/agent/orchestrator.py:260-403 | What was sent in each interaction: the conversation as it stood and, in the reserved one, a prompt with the reason and all evidence besides. |
| InvestigationResults.StateExactly | src/vast_agent/agent/orchestrator.py:403-544 | How every investigation leaves conversation, reads and session: as after the last call looked at, with the interactions counted and the result noted. |
| InvestigationResults.BoundsMean | src/vast_agent/agent/orchestrator.py:365-372 | Helper: the bounds in numbers. |
| ArgvSplit.SemanticCliArgv | src/vast_agent/agent/orchestrator.py:224-245 | Each argument goes to meaning or presentation by its mark, in order. |
| ArgvSplit.SplitMeans | src/vast_agent/agent/orchestrator.py:224-245 | Over any command line built of words, presentation flags and value options, the meaning is the words and the presentation the rest. |
| ArgvSplit.SplitLosesNothing | src/vast_agent/agent/orchestrator.py:224-245 | The input is the two outputs woven together again. |
| ArgvSplit.MeaningIsStable | src/vast_agent/agent/orchestrator.py:224-245 | Splitting the meaning again gives it back, with no presentation. |
| ArgvSplit.PresentationIsStable | src/vast_agent/agent/orchestrator.py:224-245 | Splitting the presentation again gives it back, with no meaning. |
| ReadGate.RunValidatedRead | src/vast_agent/agent/generic_read.py:199-229 | Nothing reaches the host exactly when the command is not READ; otherwise it gets the validated arguments and at most the sudo probe. |
| ReadGate.ReadMeans | src/vast_agent/agent/generic_read.py:80-168 | READ is given exactly when no risk is found and, with help only, help is asked for. |
| GateRules.GateExactly | src/vast_agent/agent/generic_read.py:80-168 | The whole gate, told by the text of the arguments: MUTATION and BLOCKED exactly under the rules listed, and READ otherwise. |
| GatePaths.PathIsItsName | src/vast_agent/agent/generic_read.py:68-77 | The gate says of a plain name under any absolute directory without "..", control or metacharacters what it says of the name. |
| GatePaths.UpIsBlocked | src/vast_agent/agent/generic_read.py:68-77 | A path through ".." is never accepted. |
| GatePaths.TailIsDropped | src/vast_agent/agent/generic_read.py:68-77 | A slash at the end of a path, or a slash and a dot, changes nothing but the length. |
| GatePaths.OthersAreBlocked | src/vast_agent/agent/generic_read.py:68-77 | Whatever is neither a plain name nor an absolute path is refused. |
| GatePaths.PlainNameMeans | src/vast_agent/agent/generic_read.py:70 | Helper: what a plain name is, character by character. |
| ReadGate.RefusedGrows | src/vast_agent/agent/generic_read.py:95-159 | A risk found in a non-empty argument list is found in every longer one. |
| ReadGate.ReadIsClosed | src/vast_agent/agent/generic_read.py:80-168 | Extending the arguments makes a READ of nothing that was none, but for a bare crontab given -l. |
| ReadGate.HelpLaundersNothing | src/vast_agent/agent/generic_read.py:136-146 | Appending --help never makes a READ of a command that was none, without arguments too. |
| ReadGate.HelpOnlyExactly | src/vast_agent/agent/generic_read.py:161-167 | With help only, an extension makes a READ of what was none exactly if it carries no risk and asks for help where the shorter list did not; so never of a command refused for a risk. |
| ReadGate.HelpOnlyOpens | src/vast_agent/agent/generic_read.py:161-167 | With help only the closure fails for every command that lacks just its --help. |
| ReadGate.BareCommandOpens | src/vast_agent/agent/generic_read.py:161-167 | Inputs on which it fails: every bare command that is not refused by its name. |
| Lines.SplitAppend | src/vast_agent/diagnostics/parser.py:62 | Text that ends a line splits apart from what follows. |
| Lines.SplitAtBreak | src/vast_agent/diagnostics/parser.py:62 | Helper: where a line ends, and that a carriage return takes its line feed along. |
| Lines.StripMeans | src/vast_agent/diagnostics/parser.py:67 | Helper: stripping takes the white space off both ends, and nothing else. |
| Lines.StripFinds | src/vast_agent/diagnostics/parser.py:67 | Helper: and finds the core of any text so surrounded. |
| Lines.SpaceMeans | src/vast_agent/diagnostics/parser.py:62-67 | Helper: what white space and line ends are, by code. |
| PciParser.CollectBlocks | src/vast_agent/diagnostics/parser.py:60-70 | The loop collects one block per header, with the lines up to the next, separators left out. |
| PciParser.HexMeans | src/vast_agent/diagnostics/parser.py:63 | Helper: the hexadecimal digits of an address, in capitals or not. |
| PciParser.ParsePci | src/vast_agent/diagnostics/parser.py:48-110 | The entries of the specification, and counters that count them. |
| PciRoundTrip.PciRoundTrip | src/vast_agent/diagnostics/parser.py:48-110 | Rendering any list of cards as `lspci` does and parsing the text gives exactly the NVIDIA functions among them, with their drivers and modules. |
| PciRoundTrip.CardRead | src/vast_agent/diagnostics/parser.py:73-100 | Helper: the same of one card. |
| PciParser.CountersMean | src/vast_agent/diagnostics/parser.py:103-109 | Each counter is the number of gpu entries with that driver, or without one. |
| PciParser.Conservation | src/vast_agent/diagnostics/parser.py:103-109 | The four counts add up to the number of gpu entries, for every text. |
| PciParser.EntriesAreNvidia | src/vast_agent/diagnostics/parser.py:71-91 | Every entry shares its function group with an NVIDIA gpu of the text. |
| PciParser.VfioMeansEveryGpu | src/vast_agent/models/observation.py:43-56 | The verdict holds exactly when PCI was read, the expected number of gpus was found, and every one is driven by vfio-pci. |
| PciParser.MixedMeansTwoKinds | src/vast_agent/diagnostics/composite.py:60-70 | "mixed" is said exactly when PCI is readable, no driver is unknown, and two kinds of binding occur. |
| PciParser.OwnershipMeans | src/vast_agent/diagnostics/composite.py:60-70 | What is said of the ownership in each other case: of the drivers of all gpus. |
| PciParser.SeparatorAnywhere | src/vast_agent/diagnostics/parser.py:57-68 | A separator at any position changes no block. |
| PciParser.SeparatorsAreIgnored | src/vast_agent/diagnostics/parser.py:57-68 | The same of a separator line put into the text. |
| ServiceParser.ParseServiceShow | src/vast_agent/diagnostics/parser.py:113-132 | The loop computes the listing of the specification. |
| ServiceParser.RoundTrip | src/vast_agent/diagnostics/parser.py:113-132 | Rendering any list of units and parsing it gives the states of the loaded ones. |
| ServiceParser.RoundTripIsExact | src/vast_agent/diagnostics/parser.py:113-132 | With distinct names the listing says of each loaded unit its state, and nothing else. |
| ServiceParser.FirstIsVastai | src/vast_agent/diagnostics/parser.py:115-130 | What stands before the first unit's name is said of vastai.service, and a unit without a load state counts as loaded. |
| ServiceParser.ShortMeans | src/vast_agent/diagnostics/parser.py:127-131 | Helper: the name listed is that of the unit without ".service". |
| ServiceParser.IgnoredAnywhere | src/vast_agent/diagnostics/parser.py:116-123 | A line with another key or no equals sign changes nothing at any position. |
| ServiceParser.OtherLinesAreIgnored | src/vast_agent/diagnostics/parser.py:116-123 | The same of a line put into the text. |
| Capability.GroundedRequestIsExact | src/vast_agent/actions/capability_bridge.py:43-158 | Grounding and asking yields a request exactly with consent, enough confidence, an installable catalog entry, and one available same-host record each that says the package and every executable are absent. |
| Capability.AnswerMeans | src/vast_agent/actions/capability_bridge.py:81-104 | Reading the filtered records finds "yes" or "no" exactly when one record alone answers, is available and says so. |
| Capability.ServiceIsExact | src/vast_agent/actions/capability_bridge.py:127-141 | What the services are found to be, told by the records about them. |
| Capability.GroundedStatusIsExact | src/vast_agent/actions/capability_bridge.py:66-158 | The status that grounding gives a gap, told by the evidence: missing exactly when the session confirms every absence, available or degraded when it confirms every presence and the services decide, else unknown; with what is noted as evidence. |
| Capability.PackageIsTheCatalogs | src/vast_agent/actions/capability_bridge.py:55-63 | The package asked for is always the catalog's. |
| Capability.AssessKeepsGrounded | src/vast_agent/actions/capability_bridge.py:161-179 | Assessing a grounded gap keeps its status. |
| Capability.AssessIsIdempotent | src/vast_agent/actions/capability_bridge.py:161-179 | Assessing twice is assessing once, the reason text included. |

## Left out

- Worker.Recheck: records PREFLIGHT_BLOCKED as the reason of a blocked typed action, where the source joins the policy's reasons with commas in the row.
- HostLock.HostState: `acquire` is cut into `Enter`, `Ready` and `Leave` where `wait_for` lets go of the condition; the waiting itself is in `LockProtocol`.
- The class `CancellationToken` runs its calls one after the other; the token steps of `LockProtocol`, in which they interleave, are not tied to it by a refinement lemma.
- Callbacks that raise, and scheduling fairness: every step of the lock protocol succeeds, and none is promised to be taken.
- InvestigationAnswers.AnsweredOnce: for responses whose call ids differ from each other and from `<id>:continuation`; ids repeated across responses are counted together.
- Folding and case-insensitive matching beyond ASCII.
- The fingerprint hash and the JSON of arguments: taken as injective; parameters survive their JSON round trip.
- Redaction of snapshots: a snapshot in the model is the redacted one.
- Exit codes, error codes, summaries and event details; a `Plan` keeps its prose as one field.
- An exception in a call of the coordinator is a step that ends the call and lets go of its lock, at any point.
- Wall-clock limits of the investigation: arbitrary answers at each look at the clock.
- Continuation arguments that are no list of strings: the schema of the discovery tool has refused them before a path is known.
- The consistency check of action and parameters in `propose`, and the registries, catalogs and schemas themselves.
- Job rows (`jobs/manager.py`): a cancelled job's row can be overwritten after it has finished, so its terminal states are not absorbing.
- The docker totals: re-rendered rows are read back as unknown, so the counts are not about the rows.
- SSH, Discord, Gemini, SQLite, YAML and pydantic: answers of the outside are arbitrary inputs.
- Routing, host guessing, prompts and display of records: keyword lists.
